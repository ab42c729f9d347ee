/** The decision engine of a virtual SMSC and the per-bind state it draws from. */
module ScenarioEngine {
  import opened Wrappers
  import opened Schema
  import opened Picks
  import opened ErrorMix
  import opened Prng
  import opened Throughput
  import opened Cursors
  import opened Seeding
  import Rng

  datatype Outcome = Success | Failure | Timeout | Disconnect

  datatype DlrPlan = DlrPlan(outcome: DlrOutcome, delayTicks: nat)

  /** `status` is meant for Failure; a disconnect overlay keeps whatever was drawn before it. */
  datatype Decision = Decision(
    outcome: Outcome, status: nat, latencyMs: nat, cut: Option<When>, dlr: Option<DlrPlan>, edge: Option<EdgeKind>)

  datatype DlrGen = DlrGen(mix: seq<Bounded<DlrOutcome>>, delayTicks: nat)

  datatype EdgeGen = EdgeGen(everyTicks: nat, kinds: seq<EdgeKind>)

  /** Immutable once built, so shared by every bind of the virtual SMSC. */
  datatype Engine = Engine(
    profile: Profile, params: Params, latency: Latency, errorMix: seq<Bounded<nat>>, limitPerSec: Option<int>,
    dlr: Option<DlrGen>, edge: Option<EdgeGen>)

  /** Delivered, failed, expired, in this order. */
  function DlrWeights(d: Dlr): seq<Weight<DlrOutcome>> {
    [Weight(Delivered, d.delivered), Weight(NotDelivered, d.failed), Weight(Expired, d.expired)]
  }

  const ALL_EDGE_KINDS := [BadLength, UnknownCommandId, BadSequence]

  function EdgeGenOf(e: Option<Edges>): EdgeGen {
    if e.None? then EdgeGen(1, ALL_EDGE_KINDS)
    else EdgeGen(if e.value.everyTicks.Some? then e.value.everyTicks.value else 1,
                 if e.value.kinds == [] then ALL_EDGE_KINDS else e.value.kinds)
  }

  /** `listing` is the order in which the error mix is walked, if there is one. */
  predicate ListsMix(listing: seq<Code>, p: Params) {
    p.errorMix.Some? ==> Lists(listing, p.errorMix.value)
  }

  function New(cfg: Scenario, limitPerSec: Option<int>, listing: seq<Code>): Engine
    requires ListsMix(listing, cfg.params)
  {
    Engine(
      cfg.profile, cfg.params, cfg.latency,
      if cfg.params.errorMix.Some? then Flatten64(Ordered(cfg.params.errorMix.value, listing), 0) else [],
      limitPerSec,
      if cfg.dlr.None? then None else Some(DlrGen(Flatten64(DlrWeights(cfg.dlr.value), 0), Deref(cfg.dlr.value.ticks))),
      if cfg.edgesEnabled then Some(EdgeGenOf(cfg.edges)) else None)
  }

  /** Two builds of one config are the same engine, whatever order its error mix was walked in. */
  lemma {:induction false} NewIgnoresMapOrder(cfg: Scenario, limitPerSec: Option<int>, a: seq<Code>, b: seq<Code>)
    requires ListsMix(a, cfg.params) && ListsMix(b, cfg.params)
    ensures New(cfg, limitPerSec, a) == New(cfg, limitPerSec, b)
  {
    if cfg.params.errorMix.Some? {
      OrderIndependent(cfg.params.errorMix.value, a, b);
    }
  }

  /** A mix can be drawn from: empty, or with a positive total. */
  predicate Drawable<T>(mix: seq<Bounded<T>>) {
    mix != [] ==> mix[|mix| - 1].cum > 0
  }

  predicate Ready(e: Engine) {
    Drawable(e.errorMix) && (e.dlr.Some? ==> Drawable(e.dlr.value.mix))
  }

  /** A sum of weights that the 64-bit word does not turn into zero. */
  predicate Drawn64(total: nat) {
    total != 0 ==> total % TWO_64 != 0
  }

  /** No sum of weights of the config wraps to zero: what every engine that draws needs, and every accepted config has. */
  predicate Buildable(cfg: Scenario, listing: seq<Code>) {
    && ListsMix(listing, cfg.params)
    && (cfg.params.errorMix.Some? ==> Drawn64(Sum(Values(cfg.params.errorMix.value, listing))))
    && (cfg.dlr.Some? ==> Drawn64(cfg.dlr.value.delivered + cfg.dlr.value.failed + cfg.dlr.value.expired))
  }

  lemma {:induction false} FlattenedDrawable<T>(ws: seq<Weight<T>>)
    ensures Drawable(Flatten64(ws, 0)) <==> Drawn64(Total(ws))
  {
    Flatten64Total(ws, 0);
  }

  lemma {:induction false} TotalOne<T>(a: Weight<T>)
    ensures Total([a]) == a.weight
  {
    assert [a][1..] == [];
  }

  lemma {:induction false} TotalTwo<T>(a: Weight<T>, b: Weight<T>)
    ensures Total([a, b]) == a.weight + b.weight
  {
    TotalOne(b);
    assert [a, b][1..] == [b];
  }

  lemma {:induction false} DlrTotal(d: Dlr)
    ensures Total(DlrWeights(d)) == d.delivered + d.failed + d.expired
  {
    var ws := DlrWeights(d);
    TotalTwo(ws[1], ws[2]);
    assert ws[1..] == [ws[1], ws[2]];
  }

  lemma {:induction false} MixReady(mix: map<Code, nat>, listing: seq<Code>)
    requires Lists(listing, mix)
    ensures Drawable(Flatten64(Ordered(mix, listing), 0)) <==> Drawn64(Sum(Values(mix, listing)))
  {
    OrderedTotal(mix, listing);
    FlattenedDrawable(Ordered(mix, listing));
  }

  lemma {:induction false} DlrReady(d: Dlr)
    ensures Drawable(Flatten64(DlrWeights(d), 0)) <==> Drawn64(d.delivered + d.failed + d.expired)
  {
    DlrTotal(d);
    FlattenedDrawable(DlrWeights(d));
  }

  /** An engine can be drawn from, Uint64N never called with zero, exactly when no sum of its weights wraps to zero. */
  lemma {:induction false} NewReady(cfg: Scenario, limitPerSec: Option<int>, listing: seq<Code>)
    requires ListsMix(listing, cfg.params)
    ensures Ready(New(cfg, limitPerSec, listing)) <==> Buildable(cfg, listing)
  {
    if cfg.params.errorMix.Some? {
      MixReady(cfg.params.errorMix.value, listing);
    }
    if cfg.dlr.Some? {
      DlrReady(cfg.dlr.value);
    }
  }

  /** Two weights of 2^63, which the validator refuses, sum to zero in the word: the first receipt drawn is drawn below zero. */
  lemma {:induction false} WrappedWeightsUndrawable(cfg: Scenario, limitPerSec: Option<int>, listing: seq<Code>)
    requires ListsMix(listing, cfg.params) && cfg.dlr.Some?
    requires cfg.dlr.value.delivered == cfg.dlr.value.failed == 0x8000_0000_0000_0000 && cfg.dlr.value.expired == 0
    ensures
      var mix := New(cfg, limitPerSec, listing).dlr.value.mix;
      mix != [] && mix[|mix| - 1].cum == 0 && !Ready(New(cfg, limitPerSec, listing))
  {
    var ws := DlrWeights(cfg.dlr.value);
    DlrTotal(cfg.dlr.value);
    Flatten64Total(ws, 0);
  }

  // ----- the throughput cap of an engine -----

  function Tighter(cap: Option<int>, c: Option<int>): Option<int> {
    if c.None? then cap else if cap.None? || c.value < cap.value then c else cap
  }

  predicate Capped(p: Profile) {
    p == ThrottlingCarrier || p == ThroughputCapped
  }

  /** The configured limit, then the profile's own cap, the tighter winning. */
  function EffectiveCap(e: Engine): Option<int> {
    Tighter(Tighter(None, e.limitPerSec), if Capped(e.profile) then e.params.throughputCap else None)
  }

  /** The cap is one that applies, and the tightest; there is none exactly when nothing applies. */
  lemma {:induction false} CapIsTightest(e: Engine, c: int)
    ensures EffectiveCap(e) == Some(c) <==>
      && (e.limitPerSec == Some(c)
          || (e.profile in {ThrottlingCarrier, ThroughputCapped} && e.params.throughputCap == Some(c)))
      && (e.limitPerSec.Some? ==> c <= e.limitPerSec.value)
      && (e.profile in {ThrottlingCarrier, ThroughputCapped} && e.params.throughputCap.Some? ==>
            c <= e.params.throughputCap.value)
  {
    assert EffectiveCap(e) == Tighter(e.limitPerSec, if Capped(e.profile) then e.params.throughputCap else None);
  }

  /** Whether every bind is refused, whatever its credentials: asked of the initial engine, which no transition changes. */
  predicate RejectsBinds(e: Engine) {
    e.profile == DeadCarrier && e.params.mode == Some(RejectBind)
  }

  // ----- decisions -----

  /** What a bind draws from: its generator's state and, when a cap applies, its wall-clock gate. */
  datatype Bind<S> = Bind(rng: S, gate: Option<Gate>)

  datatype Gate = Gate(window: Window, cap: int)

  function ThrottleStatus(e: Engine): nat {
    if e.profile == ThrottlingCarrier && e.params.errorCode.Some? then StatusFor(e.params.errorCode.value)
    else STATUS_THROTTLED
  }

  function Draw<S, T>(mix: seq<Bounded<T>>, src: Source<S>, s: S): (T, S)
    requires mix != [] && Drawable(mix)
  {
    var (n, s') := Uint64N(src, s, mix[|mix| - 1].cum);
    (Picked(mix, n), s')
  }

  function PickErrorStatus<S>(e: Engine, src: Source<S>, s: S): (nat, S)
    requires Ready(e)
  {
    if e.errorMix == [] then (STATUS_SUBMIT_FAIL, s) else Draw(e.errorMix, src, s)
  }

  function PickDlrOutcome<S>(mix: seq<Bounded<DlrOutcome>>, src: Source<S>, s: S): (DlrOutcome, S)
    requires Drawable(mix)
  {
    if mix == [] then (Delivered, s) else Draw(mix, src, s)
  }

  /** Succeeds or fails on one fraction, then a code if it failed, then the latency; the periodic cut draws nothing. */
  function Flaky<S>(e: Engine, t: nat, src: Source<S>, s: S): (Decision, S)
    requires Ready(e)
  {
    var (f, s1) := Float64(src, s);
    var failed := f >= (if e.params.successRate.Some? then e.params.successRate.value else 1.0);
    var (status, s2) := if failed then PickErrorStatus(e, src, s1) else (0, s1);
    var (ms, s3) := LatencyMs(e.latency, t, src, s2);
    var cut := e.params.disconnectInterval.Some? && e.params.disconnectInterval.value != 0 && t % e.params.disconnectInterval.value == 0;
    (Decision(if cut then Disconnect else if failed then Failure else Success, status, ms,
              if cut then Some(AfterResponse) else None, None, None), s3)
  }

  /** The outcome under the profile, once past the gate. */
  function Profiled<S>(e: Engine, t: nat, src: Source<S>, s: S): (Decision, S)
    requires Ready(e)
  {
    match e.profile
    case FlakyCarrier => Flaky(e, t, src, s)
    case DeadCarrier => (Decision(Timeout, 0, 0, None, None, None), s)
    case _ =>
      var (ms, s') := LatencyMs(e.latency, t, src, s);
      (Decision(Success, 0, ms, None, None, None), s')
  }

  /** The receipt of a success is drawn last. */
  function Planned<S>(e: Engine, d: Decision, src: Source<S>, s: S): (Decision, S)
    requires Ready(e)
  {
    if e.dlr.Some? && d.outcome.Success? then
      var (o, s') := PickDlrOutcome(e.dlr.value.mix, src, s);
      (d.(dlr := Some(DlrPlan(o, e.dlr.value.delayTicks))), s')
    else (d, s)
  }

  /** A pure function of the tick; the guards keep it total. */
  function EdgeCaseFor(g: Option<EdgeGen>, t: nat): Option<EdgeKind> {
    if g.None? || t == 0 || g.value.kinds == [] || g.value.everyTicks == 0 || t % g.value.everyTicks != 0 then None
    else Some(g.value.kinds[(t / g.value.everyTicks - 1) % |g.value.kinds|])
  }

  /** The verdict on the submit at tick `t`, read at wall-clock time `now`, and the bind it leaves. */
  function Decide<S>(e: Engine, src: Source<S>, b: Bind<S>, t: nat, now: int): (Decision, Bind<S>)
    requires Ready(e)
  {
    var gate := if b.gate.None? then None else Some(b.gate.value.(window := Next(b.gate.value.window, now)));
    var (d, s) :=
      if b.gate.Some? && !Admitted(b.gate.value.window, now, b.gate.value.cap)
      then (Decision(Failure, ThrottleStatus(e), 0, None, None, None), b.rng)
      else
        var (d, s) := Profiled(e, t, src, b.rng);
        Planned(e, d, src, s);
    (d.(edge := EdgeCaseFor(e.edge, t)), Bind(s, gate))
  }

  /** The generator state a bind starts in: its own under a seed, any in chaos mode. */
  function StartState<S>(src: Source<S>, seed: Option<bv64>, nameHash: bv64, ordinal: nat, chaos: S): S {
    if seed.Some? then src.seeded(seed.value, nameHash, ordinal) else chaos
  }

  function OriginOf(seed: Option<bv64>, nameHash: bv64, ordinal: nat, chaos: bv64): Origin {
    if seed.Some? then Derived(seed.value, nameHash, ordinal) else Chaos(chaos)
  }

  function Fresh<S>(e: Engine, s: S, zero: int): Bind<S> {
    Bind(s, if EffectiveCap(e).None? then None else Some(Gate(Window(zero, 0), EffectiveCap(e).value)))
  }

  /** A bind has a gate exactly when a limit is configured, or a cap for one of the two throughput profiles; its cap is one of these. */
  lemma {:induction false} GateIffCapped<S>(e: Engine, s: S, zero: int)
    ensures
      var gate := Fresh(e, s, zero).gate;
      && (gate.Some? <==>
            || e.limitPerSec.Some?
            || (e.profile in {ThrottlingCarrier, ThroughputCapped} && e.params.throughputCap.Some?))
      && (gate.Some? ==> gate.value.window == Window(zero, 0) && EffectiveCap(e) == Some(gate.value.cap))
      && (e.profile in {ThrottlingCarrier, ThroughputCapped} && e.params.throughputCap.Some? && e.limitPerSec.None? ==>
            gate.value.cap == e.params.throughputCap.value)
  {
    assert EffectiveCap(e) == Tighter(e.limitPerSec, if Capped(e.profile) then e.params.throughputCap else None);
  }

  // ----- what each profile decides -----

  predicate Passes(gate: Option<Gate>, now: int) {
    gate.Some? ==> Admitted(gate.value.window, now, gate.value.cap)
  }

  /** The submits at every multiple of the interval drop the link of a flaky carrier. */
  predicate DropTick(k: Params, t: nat) {
    k.disconnectInterval.Some? && k.disconnectInterval.value > 0 && t % k.disconnectInterval.value == 0
  }

  /**
    The outcome of profile `p` with knobs `k` for an admitted submit at tick `t`, on the first fraction drawn:
    a dead carrier times out; a flaky one drops the link at its ticks, and elsewhere succeeds below its
    success rate and fails from it on, never without a rate; any other succeeds.
  */
  predicate Outcomes(p: Profile, k: Params, t: nat, fraction: real, d: Decision) {
    && (d.outcome.Timeout? <==> p == DeadCarrier)
    && (d.outcome.Disconnect? <==> p == FlakyCarrier && DropTick(k, t))
    && (d.outcome.Failure? <==>
          p == FlakyCarrier && !DropTick(k, t) && k.successRate.Some? && fraction >= k.successRate.value)
    && (d.cut.Some? <==> d.outcome.Disconnect?) && (d.cut.Some? ==> d.cut.value == AfterResponse)
  }

  /** Past the gate every profile decides as documented. */
  lemma {:induction false} OutcomeByProfile<S>(e: Engine, src: Source<S>, b: Bind<S>, t: nat, now: int)
    requires Ready(e) && Passes(b.gate, now)
    ensures Outcomes(e.profile, e.params, t, Float64(src, b.rng).0, Decide(e, src, b, t, now).0)
  {
    ProfileOutcome(e, src, b.rng, t);
  }

  lemma {:induction false} ProfileOutcome<S>(e: Engine, src: Source<S>, s: S, t: nat)
    requires Ready(e)
    ensures Outcomes(e.profile, e.params, t, Float64(src, s).0, Profiled(e, t, src, s).0)
  {
  }

  /** A refused submit fails: with the configured code of a throttling carrier, else as throttled. Nothing is drawn, held back or planned. */
  lemma {:induction false} RefusalByProfile<S>(e: Engine, src: Source<S>, b: Bind<S>, t: nat, now: int)
    requires Ready(e) && !Passes(b.gate, now)
    ensures
      var (d, b') := Decide(e, src, b, t, now);
      && d.outcome.Failure? && d.latencyMs == 0 && d.dlr.None? && d.cut.None? && b'.rng == b.rng
      && d.status == (if e.profile == ThrottlingCarrier && e.params.errorCode.Some? then StatusFor(e.params.errorCode.value) else 0x58)
  {
  }

  /** A success rate of zero never succeeds; of one or more, or none, never fails. */
  lemma {:induction false} ExtremeRates<S>(e: Engine, src: Source<S>, b: Bind<S>, t: nat, now: int)
    requires Ready(e) && e.profile == FlakyCarrier && Passes(b.gate, now)
    ensures
      var o := Decide(e, src, b, t, now).0.outcome;
      && (e.params.successRate.Some? && e.params.successRate.value <= 0.0 ==> !o.Success?)
      && (e.params.successRate.None? || e.params.successRate.value >= 1.0 ==> !o.Failure?)
  {
    OutcomeByProfile(e, src, b, t, now);
  }

  /** Raising the success rate turns no success into a failure. */
  lemma {:induction false} RatesMonotone<S>(e: Engine, rate: real, src: Source<S>, b: Bind<S>, t: nat, now: int)
    requires Ready(e) && e.params.successRate.Some? && e.params.successRate.value <= rate
    ensures
      var higher := e.(params := e.params.(successRate := Some(rate)));
      Decide(e, src, b, t, now).0.outcome.Success? ==> Decide(higher, src, b, t, now).0.outcome.Success?
  {
    var higher := e.(params := e.params.(successRate := Some(rate)));
    if Passes(b.gate, now) {
      OutcomeByProfile(e, src, b, t, now);
      OutcomeByProfile(higher, src, b, t, now);
    } else {
      RefusalByProfile(e, src, b, t, now);
    }
  }

  /** The per-bind state, owned by one session. */
  class BindState<S(0)> {
    var rng: S
    const schedBase: bv64
    const gate: WallWindow?

    function Value(): Bind<S>
      reads this, gate
    {
      Bind(rng, if gate == null then None else Some(Gate(gate.State(), gate.capPerSec)))
    }

    /** The coin of a scope: random disconnect: idempotent, and drawn from the base alone. */
    predicate DisconnectDraw(tick: nat) {
      Rng.ScheduleCoin(schedBase, OrdinalWord(tick))
    }

    /** The program's own coin for the origin of the base, at the peek as at the consumption. */
    lemma {:induction false} DrawsItsCoin(o: Origin, tick: nat)
      requires schedBase == BaseOf(o)
      ensures DisconnectDraw(tick) == CoinOn(DrawnCoins(), o)(tick)
    {
    }

    constructor (e: Engine, src: Source<S>, seed: Option<bv64>, nameHash: bv64, ordinal: nat, chaos: (S, bv64), zero: int)
      ensures gate != null ==> fresh(gate)
      ensures Value() == Fresh(e, StartState(src, seed, nameHash, ordinal, chaos.0), zero)
      ensures schedBase == BaseOf(OriginOf(seed, nameHash, ordinal, chaos.1))
    {
      if seed.Some? {
        rng := src.seeded(seed.value, nameHash, ordinal);
        schedBase := Rng.ScheduleBase(seed.value, nameHash, OrdinalWord(ordinal));
      } else {
        rng, schedBase := chaos.0, chaos.1;
      }
      var cap := EffectiveCap(e);
      if cap.Some? {
        var g := new WallWindow(cap.value, zero);
        gate := g;
      } else {
        gate := null;
      }
    }

    method Evaluate(e: Engine, src: Source<S>, t: nat, now: int) returns (d: Decision)
      requires Ready(e)
      modifies this`rng, gate
      ensures (d, Value()) == Decide(e, src, old(Value()), t, now)
      ensures Passes(old(Value()).gate, now) ==> Outcomes(e.profile, e.params, t, Float64(src, old(rng)).0, d)
    {
      ghost var before := Value();
      if Passes(before.gate, now) {
        OutcomeByProfile(e, src, before, t, now);
      }
      d := EvaluateOutcome(e, src, t, now);
      if e.dlr.Some? && d.outcome.Success? {
        var (o, s) := PickDlrOutcome(e.dlr.value.mix, src, rng);
        rng := s;
        d := d.(dlr := Some(DlrPlan(o, e.dlr.value.delayTicks)));
      }
      d := d.(edge := EdgeCaseFor(e.edge, t));
    }

    /** The gate first, the one reader of the wall clock; then the profile. */
    method EvaluateOutcome(e: Engine, src: Source<S>, t: nat, now: int) returns (d: Decision)
      requires Ready(e)
      modifies this`rng, gate
      ensures gate != null ==> gate.State() == Next(old(gate.State()), now)
      ensures (d, rng) ==
        if gate != null && !Admitted(old(gate.State()), now, gate.capPerSec)
        then (Decision(Failure, ThrottleStatus(e), 0, None, None, None), old(rng))
        else Profiled(e, t, src, old(rng))
    {
      if gate != null {
        var ok := gate.Allow(now);
        if !ok {
          return Decision(Failure, ThrottleStatus(e), 0, None, None, None);
        }
      }
      var (d', s) := Profiled(e, t, src, rng);
      rng := s;
      d := d';
    }
  }

  // ----- what the decisions never depend on -----

  /** Malformed-response injection draws nothing: any injection settings leave every other decision and the stream as they are. */
  lemma {:induction false} EdgeCasesDrawNothing<S>(e: Engine, edge: Option<EdgeGen>, src: Source<S>, b: Bind<S>, t: nat, now: int)
    requires Ready(e)
    ensures
      var (d, b') := Decide(e, src, b, t, now);
      var (d2, b2) := Decide(e.(edge := edge), src, b, t, now);
      d2.(edge := None) == d.(edge := None) && b2 == b' && d2.edge == EdgeCaseFor(edge, t)
  {
    var e2 := e.(edge := edge);
    assert Profiled(e2, t, src, b.rng) == Profiled(e, t, src, b.rng);
    var (d, s) := Profiled(e, t, src, b.rng);
    assert Planned(e2, d, src, s) == Planned(e, d, src, s);
  }

  /** The wall clock reaches a decision through the gate only. */
  lemma {:induction false} ClockOnlyThroughGate<S>(e: Engine, src: Source<S>, b: Bind<S>, t: nat, now: int, now': int)
    requires Ready(e) && b.gate.None?
    ensures Decide(e, src, b, t, now) == Decide(e, src, b, t, now') && Decide(e, src, b, t, now).1.gate.None?
  {
  }

  // ----- the order of the draws, seen by a generator that records what it is asked -----

  datatype Drawn = Fraction | Word(below: nat) | Gauss

  /** A generator whose state is the list of its draws so far; what it answers is arbitrary. */
  ghost predicate Recording(src: Source<seq<Drawn>>) {
    && (forall s, n :: src.word(s, n).1 == s + [Word(n)])
    && (forall s :: src.float(s).1 == s + [Fraction])
    && (forall s :: src.gauss(s).1 == s + [Gauss])
  }

  function PickDraws<T>(mix: seq<Bounded<T>>): seq<Drawn> {
    if mix == [] then [] else [Word(mix[|mix| - 1].cum)]
  }

  /** One draw for a uniform range with more than one value and for a normal, none otherwise. */
  function LatencyDraws(l: Latency): seq<Drawn> {
    if l.distribution.Uniform? && Deref(l.minMs) < Deref(l.maxMs) then [Word(Deref(l.maxMs) - Deref(l.minMs) + 1)]
    else if l.distribution.Normal? then [Gauss]
    else []
  }

  predicate Failed<S>(e: Engine, src: Source<S>, s: S) {
    e.profile.FlakyCarrier? && Float64(src, s).0 >= if e.params.successRate.Some? then e.params.successRate.value else 1.0
  }

  /** What is asked of the generator past the gate, before a receipt. */
  function OutcomeDraws(e: Engine, failed: bool): seq<Drawn> {
    if e.profile.DeadCarrier? then []
    else (if e.profile.FlakyCarrier? then [Fraction] + (if failed then PickDraws(e.errorMix) else []) else []) + LatencyDraws(e.latency)
  }

  lemma {:induction false} OutcomeDrawOrder(e: Engine, src: Source<seq<Drawn>>, s: seq<Drawn>, t: nat)
    requires Ready(e) && Recording(src)
    ensures Profiled(e, t, src, s).1 == s + OutcomeDraws(e, Failed(e, src, s))
    ensures Profiled(e, t, src, s).0.dlr.None?
  {
    var asked := s + (if e.profile.FlakyCarrier? then [Fraction] + (if Failed(e, src, s) then PickDraws(e.errorMix) else []) else []);
    LatencyDrawn(e.latency, src, asked, t);
    if e.profile.FlakyCarrier? {
      assert Float64(src, s).1 == s + [Fraction];
      assert (s + [Fraction]) + PickDraws(e.errorMix) == s + ([Fraction] + PickDraws(e.errorMix));
    }
    assert asked + LatencyDraws(e.latency) == s + OutcomeDraws(e, Failed(e, src, s)) || e.profile.DeadCarrier?;
  }

  lemma {:induction false} LatencyDrawn(l: Latency, src: Source<seq<Drawn>>, s: seq<Drawn>, t: nat)
    requires Recording(src)
    ensures LatencyMs(l, t, src, s).1 == s + LatencyDraws(l)
  {
    assert s + [] == s;
  }

  /**
    The documented order of the draws: the gate asks nothing and a refused submit stops there; then
    success or failure, the code of a failure only, the latency, and last the outcome of a receipt.
  */
  lemma {:induction false} DrawOrder(e: Engine, src: Source<seq<Drawn>>, s: seq<Drawn>, gate: Option<Gate>, t: nat, now: int)
    requires Ready(e) && Recording(src)
    ensures
      var (d, b) := Decide(e, src, Bind(s, gate), t, now);
      var refused := gate.Some? && !Admitted(gate.value.window, now, gate.value.cap);
      b.rng == if refused then s
               else s + OutcomeDraws(e, Failed(e, src, s)) + if d.dlr.Some? then PickDraws(e.dlr.value.mix) else []
  {
    OutcomeDrawOrder(e, src, s, t);
    var (d, s') := Profiled(e, t, src, s);
    assert s' + [] == s';
  }

  /** The k-th injecting tick of an enabled injection carries the k-th kind of the rotation; no other tick carries one. */
  lemma {:induction false} EdgeRotation(g: EdgeGen, t: nat, k: nat)
    requires g.everyTicks > 0 && g.kinds != []
    ensures EdgeCaseFor(Some(g), t).Some? <==> t > 0 && t % g.everyTicks == 0
    ensures EdgeCaseFor(Some(g), (k + 1) * g.everyTicks) == Some(g.kinds[k % |g.kinds|])
  {
    assert (k + 1) * g.everyTicks % g.everyTicks == 0 && (k + 1) * g.everyTicks / g.everyTicks == k + 1 by {
      Multiples(k + 1, g.everyTicks);
    }
    assert (k + 1) * g.everyTicks > 0;
  }

  lemma {:induction false} Multiples(q: nat, n: nat)
    requires n > 0
    ensures q * n % n == 0 && q * n / n == q
  {
    var a, r := q * n / n, q * n % n;
    assert q * n == a * n + r;
    if q > a {
      AtLeast(q - a, n);
    }
  }

  lemma {:induction false} AtLeast(k: nat, n: nat)
    requires k >= 1
    ensures k * n >= n
  {
  }

  // ----- the latencies the distributions serve -----

  lemma {:induction false} Residue(q: nat, n: nat, r: nat)
    requires r < n
    ensures (q * n + r) % n == r
  {
    var a, b := (q * n + r) / n, (q * n + r) % n;
    assert q * n + r == a * n + b;
    if a > q {
      AtLeast(a - q, n);
    } else if q > a {
      AtLeast(q - a, n);
    }
  }

  /** A spike is served at exactly the multiples of its interval, the base latency at every other tick. */
  lemma {:induction false} SpikeOnMultiples<S>(l: Latency, n: nat, q: nat, r: nat, src: Source<S>, s: S)
    requires l.distribution == Spike && l.interval == Some(n) && r < n
    ensures LatencyMs(l, q * n + r, src, s) == (Deref(if r == 0 then l.spikeMs else l.baseMs), s)
  {
    Residue(q, n, r);
  }

  /** Of the equally likely words exactly one serves each latency of a uniform range. */
  lemma {:induction false} UniformExact<S>(l: Latency, lo: nat, hi: nat, ms: nat, t: nat, src: Source<S>, s: S)
    requires l.distribution == Uniform && l.minMs == Some(lo) && l.maxMs == Some(hi) && lo < hi
    requires src.word(s, hi - lo + 1).0 < hi - lo + 1
    ensures LatencyMs(l, t, src, s).0 == ms <==> lo <= ms <= hi && src.word(s, hi - lo + 1).0 == ms - lo
  {
  }

  /** A normal latency is the draw to the nearest millisecond, cut off at zero. */
  lemma {:induction false} NormalRounds<S>(l: Latency, mean: nat, stddev: nat, t: nat, src: Source<S>, s: S)
    requires l.distribution == Normal && l.meanMs == Some(mean) && l.stddevMs == Some(stddev)
    ensures
      var v, ms := mean as real + stddev as real * src.gauss(s).0, LatencyMs(l, t, src, s).0;
      if v <= 0.0 then ms == 0 else v - 0.5 < ms as real <= v + 0.5
  {
  }

  /** A latency the configuration can serve at tick `t`; a normal one may be any. */
  predicate Serves(l: Latency, t: nat, ms: nat) {
    match l.distribution
    case Unset => ms == 0
    case Fixed => ms == Deref(l.ms)
    case Uniform => if Deref(l.maxMs) <= Deref(l.minMs) then ms == Deref(l.minMs) else Deref(l.minMs) <= ms <= Deref(l.maxMs)
    case Normal => true
    case Spike =>
      ms == if l.interval.Some? && l.interval.value > 0 && t % l.interval.value == 0 then Deref(l.spikeMs) else Deref(l.baseMs)
  }

  lemma {:induction false} LatencyServes<S>(l: Latency, t: nat, src: Source<S>, s: S)
    ensures Serves(l, t, LatencyMs(l, t, src, s).0)
  {
  }

  /** An admitted submit is held back for the configured latency, whatever its outcome; a dead carrier's timeout for none. */
  lemma {:induction false} LatencyByProfile<S>(e: Engine, src: Source<S>, b: Bind<S>, t: nat, now: int)
    requires Ready(e) && Passes(b.gate, now)
    ensures
      var ms := Decide(e, src, b, t, now).0.latencyMs;
      if e.profile == DeadCarrier then ms == 0 else Serves(e.latency, t, ms)
  {
    LatencyServes(e.latency, t, src, b.rng);
    var (f, s1) := Float64(src, b.rng);
    LatencyServes(e.latency, t, src, s1);
    LatencyServes(e.latency, t, src, PickErrorStatus(e, src, s1).1);
  }

  /**
    The draw decides: a flaky carrier's failure answers the status its second draw picks from the mix, and a
    success of any other carrier plans the receipt outcome picked by the draw behind its latency's.
  */
  lemma {:induction false} DrawsDecide<S>(e: Engine, src: Source<S>, b: Bind<S>, t: nat, now: int)
    requires Ready(e) && Passes(b.gate, now)
    ensures
      var d := Decide(e, src, b, t, now).0;
      d.outcome.Failure? ==>
        d.status == if e.errorMix == [] then 0x45
                    else Picked(e.errorMix, Uint64N(src, Float64(src, b.rng).1, e.errorMix[|e.errorMix| - 1].cum).0)
    ensures
      var d := Decide(e, src, b, t, now).0;
      e.profile != FlakyCarrier && e.profile != DeadCarrier && e.dlr.Some? && e.dlr.value.mix != [] ==>
        var mix := e.dlr.value.mix;
        d.dlr == Some(DlrPlan(Picked(mix, Uint64N(src, LatencyMs(e.latency, t, src, b.rng).1, mix[|mix| - 1].cum).0),
                              e.dlr.value.delayTicks))
  {
  }

  // ----- what a decision of an accepted scenario can be -----

  predicate WeightsAccepted(d: Dlr) {
    && d.delivered <= WEIGHT_MAX && d.failed <= WEIGHT_MAX && d.expired <= WEIGHT_MAX
    && d.delivered + d.failed + d.expired > 0
  }

  function WeightOn(d: Dlr, o: DlrOutcome): nat {
    match o
    case Delivered => d.delivered
    case NotDelivered => d.failed
    case Expired => d.expired
  }

  /** Of the equally likely draws exactly w(o) plan a receipt of outcome `o`. */
  lemma {:induction false} DlrMixExact(d: Dlr, o: DlrOutcome)
    requires WeightsAccepted(d)
    ensures
      var ws := DlrWeights(d);
      && 0 < Total(ws) < TWO_64 && Flatten64(ws, 0) == Flatten(ws, 0) != []
      && Hits(Flatten(ws, 0), o, 0, Total(ws)) == WeightOn(d, o) == WeightOf(ws, o)
  {
    var ws := DlrWeights(d);
    var two, one := [ws[1], ws[2]], [ws[2]];
    assert ws[1..] == two && two[1..] == one && one[1..] == [];
    DlrTotal(d);
    assert WeightOf(one, o) == (if o == Expired then d.expired else 0);
    assert WeightOf(two, o) == (if o == NotDelivered then d.failed else 0) + WeightOf(one, o);
    FlattenFits(ws, 0);
    PicksExact(ws, o);
  }

  predicate Accepts(cfg: Scenario, listing: seq<Code>)
    requires ListsMix(listing, cfg.params)
  {
    && (cfg.params.errorMix.Some? ==> Accepted(cfg.params.errorMix.value, listing))
    && (cfg.dlr.Some? ==> WeightsAccepted(cfg.dlr.value) && cfg.dlr.value.ticks.Some?)
  }

  ghost predicate StatusInMix(mix: map<Code, nat>, status: nat) {
    status != 0 && exists c :: c in mix && mix[c] > 0 && StatusFor(c) == status
  }

  /** A code the config names with weight, or the submit failure a mix-less flaky carrier answers. */
  ghost predicate ConfiguredStatus(p: Params, status: nat) {
    if p.errorMix.None? then status == STATUS_SUBMIT_FAIL
    else StatusInMix(p.errorMix.value, status)
  }

  /** What the profile decides, before any receipt is planned. */
  lemma {:induction false} ProfileFollows<S>(cfg: Scenario, limit: Option<int>, listing: seq<Code>, src: Source<S>, s: S, t: nat)
    requires ListsMix(listing, cfg.params) && Accepts(cfg, listing)
    ensures Ready(New(cfg, limit, listing))
    ensures
      var d := Profiled(New(cfg, limit, listing), t, src, s).0;
      && (d.outcome.Failure? ==> ConfiguredStatus(cfg.params, d.status) && d.status != 0)
      && d.dlr.None? && (d.cut.Some? <==> d.outcome.Disconnect?)
  {
    NewReady(cfg, limit, listing);
    StatusDrawn(cfg, limit, listing, src, Float64(src, s).1);
  }

  /**
    Past the gate a failure answers a configured, non-ROK status, and a receipt is planned exactly for a
    success under a receipt config, with an outcome that has weight.
  */
  lemma {:induction false} DecisionsFollowConfig<S>(
    cfg: Scenario, limit: Option<int>, listing: seq<Code>, src: Source<S>, s: S, t: nat, now: int)
    requires ListsMix(listing, cfg.params) && Accepts(cfg, listing)
    ensures Ready(New(cfg, limit, listing))
    ensures
      var d := Decide(New(cfg, limit, listing), src, Bind(s, None), t, now).0;
      && Outcomes(cfg.profile, cfg.params, t, Float64(src, s).0, d)
      && (d.outcome.Failure? ==> ConfiguredStatus(cfg.params, d.status) && d.status != 0)
      && (d.dlr.Some? <==> d.outcome.Success? && cfg.dlr.Some?)
      && (d.dlr.Some? ==> d.dlr.value.delayTicks == cfg.dlr.value.ticks.value && WeightOn(cfg.dlr.value, d.dlr.value.outcome) > 0)
      && (d.cut.Some? <==> d.outcome.Disconnect?)
  {
    NewReady(cfg, limit, listing);
    var e := New(cfg, limit, listing);
    ProfileFollows(cfg, limit, listing, src, s, t);
    OutcomeByProfile(e, src, Bind(s, None), t, now);
    var (d, s') := Profiled(e, t, src, s);
    if e.dlr.Some? {
      DlrDrawn(cfg.dlr.value, src, s');
    }
  }

  lemma {:induction false} MixDrawn<S>(mix: map<Code, nat>, listing: seq<Code>, src: Source<S>, s: S)
    requires Lists(listing, mix) && Accepted(mix, listing)
    ensures var flat := Flatten64(Ordered(mix, listing), 0);
            flat != [] && Drawable(flat) && StatusInMix(mix, Draw(flat, src, s).0)
  {
    var total := Total(Ordered(mix, listing));
    AcceptedFlat(mix, listing);
    ErrorMixAnswersConfigured(mix, listing, Uint64N(src, s, total).0);
  }

  lemma {:induction false} StatusDrawn<S>(cfg: Scenario, limit: Option<int>, listing: seq<Code>, src: Source<S>, s: S)
    requires ListsMix(listing, cfg.params) && Accepts(cfg, listing)
    ensures Ready(New(cfg, limit, listing))
    ensures var status := PickErrorStatus(New(cfg, limit, listing), src, s).0;
            ConfiguredStatus(cfg.params, status) && status != 0
  {
    NewReady(cfg, limit, listing);
    if cfg.params.errorMix.Some? {
      MixDrawn(cfg.params.errorMix.value, listing, src, s);
    }
  }

  lemma {:induction false} DlrDrawn<S>(d: Dlr, src: Source<S>, s: S)
    requires WeightsAccepted(d)
    ensures Drawable(Flatten64(DlrWeights(d), 0))
    ensures WeightOn(d, PickDlrOutcome(Flatten64(DlrWeights(d), 0), src, s).0) > 0
  {
    var ws := DlrWeights(d);
    DlrMixExact(d, Delivered);
    FlattenedTotal(ws, 0);
    var n := Uint64N(src, s, Total(ws)).0;
    PickedHasWeight(ws, n);
    DlrMixExact(d, Picked(Flatten(ws, 0), n));
  }
}
