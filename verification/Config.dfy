/** The validator of one virtual SMSC's decision-making configuration, and what acceptance guarantees its binds. */
module Config {
  import opened Wrappers
  import opened Schema
  import opened Picks
  import opened ErrorMix
  import opened Prng
  import opened ScenarioEngine
  import opened Engines
  import opened Replay
  import B = BindSchedule

  datatype ParamKnob = SuccessRate | ErrorMixKnob | DisconnectInterval | ThroughputCap | ErrorCode | ModeKnob

  datatype LatencyKnob = BaseMs | IntervalTicks | MaxMs | MeanMs | MinMs | Ms | SpikeMs | StddevMs

  datatype Field =
    Param(param: ParamKnob) | Mix(code: Code) | Weights | Lat(knob: LatencyKnob) | LatencyDistribution
    | DlrClock | DlrDistribution | DlrTicks | DlrMinTicks | DlrMaxTicks | DlrWeights | EdgeBlock | EdgeTicks
    | Limit | FlushMs | Transition(index: nat)

  datatype Fault = NotExposed(field: Field) | Missing(field: Field) | OutOfBounds(field: Field) | InvalidEnum(field: Field)
                 | SeededThroughputLimit(field: Field)

  // ----- the profile catalogue -----

  const THROUGHPUT_CAP_MAX: int := 1_000_000
  const LATENCY_MS_MAX: nat := 600_000
  const SLOW_CARRIER_MIN_MS: nat := 2_000
  const SLOW_CARRIER_MAX_MS: nat := 4_000

  function Exposes(p: Profile): set<ParamKnob> {
    match p
    case FlakyCarrier => {SuccessRate, ErrorMixKnob, DisconnectInterval}
    case ThrottlingCarrier => {ThroughputCap, ErrorCode}
    case DeadCarrier => {ModeKnob}
    case ThroughputCapped => {ThroughputCap}
    case _ => {}
  }

  function Defining(p: Profile): Option<ParamKnob> {
    match p
    case FlakyCarrier => Some(SuccessRate)
    case ThrottlingCarrier => Some(ThroughputCap)
    case DeadCarrier => Some(ModeKnob)
    case ThroughputCapped => Some(ThroughputCap)
    case _ => None
  }

  /** The served latencies a profile stands for, in milliseconds. */
  function LatencyWindow(p: Profile): (nat, nat) {
    if p == SlowCarrier then (SLOW_CARRIER_MIN_MS, SLOW_CARRIER_MAX_MS) else (0, LATENCY_MS_MAX)
  }

  predicate InWindow(p: Profile, ms: nat) {
    LatencyWindow(p).0 <= ms <= LatencyWindow(p).1
  }

  // ----- scenario.params -----

  predicate IsSet(p: Params, k: ParamKnob) {
    match k
    case SuccessRate => p.successRate.Some?
    case ErrorMixKnob => p.errorMix.Some?
    case DisconnectInterval => p.disconnectInterval.Some?
    case ThroughputCap => p.throughputCap.Some?
    case ErrorCode => p.errorCode.Some?
    case ModeKnob => p.mode.Some?
  }

  const PARAM_KNOBS := [SuccessRate, ErrorMixKnob, DisconnectInterval, ThroughputCap, ErrorCode, ModeKnob]

  lemma {:induction false} EveryParam()
    ensures forall k :: k in PARAM_KNOBS
  {
    forall k ensures k in PARAM_KNOBS {
      match k
      case SuccessRate => assert PARAM_KNOBS[0] == k;
      case ErrorMixKnob => assert PARAM_KNOBS[1] == k;
      case DisconnectInterval => assert PARAM_KNOBS[2] == k;
      case ThroughputCap => assert PARAM_KNOBS[3] == k;
      case ErrorCode => assert PARAM_KNOBS[4] == k;
      case ModeKnob => assert PARAM_KNOBS[5] == k;
    }
  }

  predicate ValuesInRange(p: Params, walk: seq<Code>)
    requires ListsMix(walk, p)
  {
    && (p.successRate.Some? ==> 0.0 <= p.successRate.value <= 1.0)
    && (p.throughputCap.Some? ==> 1 <= p.throughputCap.value <= THROUGHPUT_CAP_MAX)
    && (p.disconnectInterval.Some? ==> p.disconnectInterval.value >= 1)
    && (p.errorCode.Some? ==> IsErrorCode(p.errorCode.value))
    && (p.errorMix.Some? ==> Accepted(p.errorMix.value, walk))
  }

  predicate ParamsAccepted(profile: Profile, p: Params, walk: seq<Code>)
    requires ListsMix(walk, p)
  {
    && (forall k :: IsSet(p, k) ==> k in Exposes(profile))
    && (Defining(profile).Some? ==> IsSet(p, Defining(profile).value))
    && ValuesInRange(p, walk)
  }

  /** The keys of a mix are not policed by the decoder, so each is checked, in code order. */
  method ValidateCodes(mix: map<Code, nat>, walk: seq<Code>) returns (errs: seq<Fault>)
    requires Lists(walk, mix)
    ensures errs == [] <==> forall c :: c in mix ==> IsErrorCode(c)
  {
    errs := [];
    SortAscending(walk);
    var codes := SortCodes(walk);
    for i := 0 to |codes|
      invariant errs == [] <==> forall j :: 0 <= j < i ==> IsErrorCode(codes[j])
    {
      if !IsErrorCode(codes[i]) {
        errs := errs + [InvalidEnum(Mix(codes[i]))];
      }
    }
    assert forall c :: c in mix <==> c in codes;
  }

  /** The mix's own faults: its codes, then its weights in the order the map is walked. */
  method ValidateMix(mix: map<Code, nat>, walk: seq<Code>) returns (errs: seq<Fault>)
    requires Lists(walk, mix)
    ensures errs == [] <==> Accepted(mix, walk)
  {
    errs := ValidateCodes(mix, walk);
    var fault := ValidateWeights(Values(mix, walk));
    LightValues(mix, walk);
    assert Light(Values(mix, walk)) <==> forall c :: c in mix ==> mix[c] <= WEIGHT_MAX;
    if fault.Some? {
      errs := errs + [OutOfBounds(Weights)];
    }
  }

  predicate Light(ws: seq<nat>) {
    forall i :: 0 <= i < |ws| ==> ws[i] <= WEIGHT_MAX
  }

  lemma {:induction false} LightValues(mix: map<Code, nat>, walk: seq<Code>)
    requires forall c :: c in walk ==> c in mix
    ensures Light(Values(mix, walk)) <==> forall c :: c in walk ==> mix[c] <= WEIGHT_MAX
  {
    var ws := Values(mix, walk);
    ValuesAt(mix, walk);
    forall i | 0 <= i < |walk| ensures walk[i] in walk && ws[i] == mix[walk[i]] {
    }
    if Light(ws) {
      forall c | c in walk ensures mix[c] <= WEIGHT_MAX {
        var i :| 0 <= i < |walk| && walk[i] == c;
        assert ws[i] <= WEIGHT_MAX;
      }
    }
  }

  /** The range checks run on the exposed knobs only. */
  method ValidateValues(p: Params, exposed: set<ParamKnob>, walk: seq<Code>) returns (errs: seq<Fault>)
    requires ListsMix(walk, p)
    ensures (forall k :: IsSet(p, k) ==> k in exposed) ==> (errs == [] <==> ValuesInRange(p, walk))
  {
    errs := [];
    EveryParam();
    if p.successRate.Some? && SuccessRate in exposed && !(0.0 <= p.successRate.value <= 1.0) {
      errs := errs + [OutOfBounds(Param(SuccessRate))];
    }
    if p.throughputCap.Some? && ThroughputCap in exposed && !(1 <= p.throughputCap.value <= THROUGHPUT_CAP_MAX) {
      errs := errs + [OutOfBounds(Param(ThroughputCap))];
    }
    if p.disconnectInterval.Some? && DisconnectInterval in exposed && p.disconnectInterval.value < 1 {
      errs := errs + [OutOfBounds(Param(DisconnectInterval))];
    }
    if p.errorCode.Some? && ErrorCode in exposed && !IsErrorCode(p.errorCode.value) {
      errs := errs + [InvalidEnum(Param(ErrorCode))];
    }
    if p.errorMix.Some? && ErrorMixKnob in exposed {
      var more := ValidateMix(p.errorMix.value, walk);
      errs := errs + more;
    }
  }

  method ValidateParams(profile: Profile, p: Params, walk: seq<Code>) returns (errs: seq<Fault>)
    requires ListsMix(walk, p)
    ensures errs == [] <==> ParamsAccepted(profile, p, walk)
  {
    errs := [];
    for i := 0 to |PARAM_KNOBS|
      invariant errs == [] <==> forall j :: 0 <= j < i && IsSet(p, PARAM_KNOBS[j]) ==> PARAM_KNOBS[j] in Exposes(profile)
    {
      if IsSet(p, PARAM_KNOBS[i]) && PARAM_KNOBS[i] !in Exposes(profile) {
        errs := errs + [NotExposed(Param(PARAM_KNOBS[i]))];
      }
    }
    EveryParam();
    forall k | errs == [] && IsSet(p, k) ensures k in Exposes(profile) {
      assert k in PARAM_KNOBS;
    }
    if Defining(profile).Some? && !IsSet(p, Defining(profile).value) {
      errs := errs + [Missing(Param(Defining(profile).value))];
    }
    var more := ValidateValues(p, Exposes(profile), walk);
    errs := errs + more;
  }

  // ----- scenario.latency -----

  function Get(l: Latency, k: LatencyKnob): Option<nat> {
    match k
    case BaseMs => l.baseMs
    case IntervalTicks => l.interval
    case MaxMs => l.maxMs
    case MeanMs => l.meanMs
    case MinMs => l.minMs
    case Ms => l.ms
    case SpikeMs => l.spikeMs
    case StddevMs => l.stddevMs
  }

  /** Every knob, in name order. */
  const LATENCY_KNOBS := [BaseMs, IntervalTicks, MaxMs, MeanMs, MinMs, Ms, SpikeMs, StddevMs]
  const POSITIONS := [Ms, MinMs, MaxMs, MeanMs, BaseMs, SpikeMs]

  lemma {:induction false} EveryLatency()
    ensures forall k :: k in LATENCY_KNOBS
  {
    forall k ensures k in LATENCY_KNOBS {
      match k
      case BaseMs => assert LATENCY_KNOBS[0] == k;
      case IntervalTicks => assert LATENCY_KNOBS[1] == k;
      case MaxMs => assert LATENCY_KNOBS[2] == k;
      case MeanMs => assert LATENCY_KNOBS[3] == k;
      case MinMs => assert LATENCY_KNOBS[4] == k;
      case Ms => assert LATENCY_KNOBS[5] == k;
      case SpikeMs => assert LATENCY_KNOBS[6] == k;
      case StddevMs => assert LATENCY_KNOBS[7] == k;
    }
  }

  function Needed(d: Distribution): seq<LatencyKnob> {
    match d
    case Fixed => [Ms]
    case Uniform => [MinMs, MaxMs]
    case Normal => [MeanMs, StddevMs]
    case Spike => [BaseMs, SpikeMs, IntervalTicks]
    case Unset => []
  }

  predicate KnobsFit(l: Latency) {
    forall k :: Get(l, k).Some? <==> k in Needed(l.distribution)
  }

  predicate InBounds(l: Latency, lo: nat, hi: nat) {
    && (forall k :: k in POSITIONS && Get(l, k).Some? ==> lo <= Get(l, k).value <= hi)
    && (l.minMs.Some? && l.maxMs.Some? ==> l.minMs.value <= l.maxMs.value)
    && (l.stddevMs.Some? ==> l.stddevMs.value <= hi)
    && (l.interval.Some? ==> l.interval.value >= 1)
  }

  predicate LatencyAccepted(l: Latency, lo: nat, hi: nat) {
    l.distribution != Unset && KnobsFit(l) && InBounds(l, lo, hi)
  }

  /** Exactly the knobs of the distribution: none beside them, none of them missing. */
  method ValidateKnobs(l: Latency) returns (errs: seq<Fault>)
    ensures errs == [] <==> KnobsFit(l)
  {
    errs := [];
    var needed := Needed(l.distribution);
    for i := 0 to |LATENCY_KNOBS|
      invariant errs == [] <==> forall j :: 0 <= j < i && Get(l, LATENCY_KNOBS[j]).Some? ==> LATENCY_KNOBS[j] in needed
    {
      if Get(l, LATENCY_KNOBS[i]).Some? && LATENCY_KNOBS[i] !in needed {
        errs := errs + [NotExposed(Lat(LATENCY_KNOBS[i]))];
      }
    }
    ghost var unused := errs == [];
    EveryLatency();
    forall k | unused && Get(l, k).Some? ensures k in needed {
      assert k in LATENCY_KNOBS;
    }
    for i := 0 to |needed|
      invariant errs == [] <==> unused && forall j :: 0 <= j < i ==> Get(l, needed[j]).Some?
    {
      if Get(l, needed[i]).None? {
        errs := errs + [Missing(Lat(needed[i]))];
      }
    }
  }

  method ValidateBounds(l: Latency, lo: nat, hi: nat) returns (errs: seq<Fault>)
    ensures errs == [] <==> InBounds(l, lo, hi)
  {
    errs := [];
    for i := 0 to |POSITIONS|
      invariant errs == [] <==> forall j :: 0 <= j < i && Get(l, POSITIONS[j]).Some? ==> lo <= Get(l, POSITIONS[j]).value <= hi
    {
      var v := Get(l, POSITIONS[i]);
      if v.Some? && (v.value < lo || v.value > hi) {
        errs := errs + [OutOfBounds(Lat(POSITIONS[i]))];
      }
    }
    if l.minMs.Some? && l.maxMs.Some? && l.minMs.value > l.maxMs.value {
      errs := errs + [OutOfBounds(Lat(MinMs))];
    }
    if l.stddevMs.Some? && l.stddevMs.value > hi {
      errs := errs + [OutOfBounds(Lat(StddevMs))];
    }
    if l.interval.Some? && l.interval.value < 1 {
      errs := errs + [OutOfBounds(Lat(IntervalTicks))];
    }
  }

  method ValidateLatency(l: Latency, p: Profile) returns (errs: seq<Fault>)
    ensures errs == [] <==> LatencyAccepted(l, LatencyWindow(p).0, LatencyWindow(p).1)
  {
    if l.distribution == Unset {
      return [InvalidEnum(LatencyDistribution)];
    }
    errs := ValidateKnobs(l);
    var more := ValidateBounds(l, LatencyWindow(p).0, LatencyWindow(p).1);
    errs := errs + more;
  }

  // ----- the catalogue, profile by profile -----

  /** The knobs each profile takes, those it cannot do without, and their ranges. */
  lemma {:induction false} ParamsByProfile(p: Profile, k: Params, walk: seq<Code>)
    requires ListsMix(walk, k)
    ensures ParamsAccepted(p, k, walk) <==>
      match p
      case Healthy => k == NO_PARAMS
      case SlowCarrier => k == NO_PARAMS
      case FlakyCarrier =>
        && k.throughputCap.None? && k.errorCode.None? && k.mode.None?
        && k.successRate.Some? && 0.0 <= k.successRate.value <= 1.0
        && (k.disconnectInterval.Some? ==> k.disconnectInterval.value >= 1)
        && (k.errorMix.Some? ==> Accepted(k.errorMix.value, walk))
      case ThrottlingCarrier =>
        && k == NO_PARAMS.(throughputCap := k.throughputCap, errorCode := k.errorCode)
        && k.throughputCap.Some? && 1 <= k.throughputCap.value <= 1_000_000
        && (k.errorCode.Some? ==> IsErrorCode(k.errorCode.value))
      case DeadCarrier => k == NO_PARAMS.(mode := k.mode) && k.mode.Some?
      case ThroughputCapped =>
        && k == NO_PARAMS.(throughputCap := k.throughputCap)
        && k.throughputCap.Some? && 1 <= k.throughputCap.value <= 1_000_000
  {
    SetKnobs(p, k);
  }

  lemma {:induction false} SetKnobs(p: Profile, k: Params)
    ensures (forall x :: IsSet(k, x) ==> x in Exposes(p)) <==>
      && (k.successRate.Some? ==> SuccessRate in Exposes(p)) && (k.errorMix.Some? ==> ErrorMixKnob in Exposes(p))
      && (k.disconnectInterval.Some? ==> DisconnectInterval in Exposes(p)) && (k.throughputCap.Some? ==> ThroughputCap in Exposes(p))
      && (k.errorCode.Some? ==> ErrorCode in Exposes(p)) && (k.mode.Some? ==> ModeKnob in Exposes(p))
  {
    assert IsSet(k, SuccessRate) == k.successRate.Some? && IsSet(k, ErrorMixKnob) == k.errorMix.Some?;
    assert IsSet(k, DisconnectInterval) == k.disconnectInterval.Some? && IsSet(k, ThroughputCap) == k.throughputCap.Some?;
    assert IsSet(k, ErrorCode) == k.errorCode.Some? && IsSet(k, ModeKnob) == k.mode.Some?;
  }

  /** The knobs each distribution takes, all of them needed, within the window of the profile. */
  lemma {:induction false} LatencyByDistribution(l: Latency, p: Profile)
    ensures LatencyAccepted(l, LatencyWindow(p).0, LatencyWindow(p).1) <==>
      var (lo, hi) := if p == SlowCarrier then (2_000, 4_000) else (0, 600_000);
      match l.distribution
      case Unset => false
      case Fixed => l == NO_LATENCY.(distribution := Fixed, ms := l.ms) && l.ms.Some? && lo <= l.ms.value <= hi
      case Uniform =>
        && l == NO_LATENCY.(distribution := Uniform, minMs := l.minMs, maxMs := l.maxMs)
        && l.minMs.Some? && l.maxMs.Some? && lo <= l.minMs.value <= l.maxMs.value <= hi
      case Normal =>
        && l == NO_LATENCY.(distribution := Normal, meanMs := l.meanMs, stddevMs := l.stddevMs)
        && l.meanMs.Some? && l.stddevMs.Some? && lo <= l.meanMs.value <= hi && l.stddevMs.value <= hi
      case Spike =>
        && l == NO_LATENCY.(distribution := Spike, baseMs := l.baseMs, spikeMs := l.spikeMs, interval := l.interval)
        && l.baseMs.Some? && l.spikeMs.Some? && l.interval.Some?
        && lo <= l.baseMs.value <= hi && lo <= l.spikeMs.value <= hi && l.interval.value >= 1
  {
    KnobsSpelled(l);
    BoundsSpelled(l, LatencyWindow(p).0, LatencyWindow(p).1);
  }

  lemma {:induction false} KnobsSpelled(l: Latency)
    ensures KnobsFit(l) <==>
      && (l.baseMs.Some? <==> l.distribution == Spike) && (l.interval.Some? <==> l.distribution == Spike)
      && (l.maxMs.Some? <==> l.distribution == Uniform) && (l.meanMs.Some? <==> l.distribution == Normal)
      && (l.minMs.Some? <==> l.distribution == Uniform) && (l.ms.Some? <==> l.distribution == Fixed)
      && (l.spikeMs.Some? <==> l.distribution == Spike) && (l.stddevMs.Some? <==> l.distribution == Normal)
  {
    var needed := Needed(l.distribution);
    assert BaseMs in needed <==> l.distribution == Spike;
    assert IntervalTicks in needed <==> l.distribution == Spike;
    assert MaxMs in needed <==> l.distribution == Uniform;
    assert MeanMs in needed <==> l.distribution == Normal;
    assert MinMs in needed <==> l.distribution == Uniform;
    assert Ms in needed <==> l.distribution == Fixed;
    assert SpikeMs in needed <==> l.distribution == Spike;
    assert StddevMs in needed <==> l.distribution == Normal;
    GottenKnobs(l);
  }

  lemma {:induction false} GottenKnobs(l: Latency)
    ensures Get(l, BaseMs) == l.baseMs && Get(l, IntervalTicks) == l.interval && Get(l, MaxMs) == l.maxMs && Get(l, MeanMs) == l.meanMs
    ensures Get(l, MinMs) == l.minMs && Get(l, Ms) == l.ms && Get(l, SpikeMs) == l.spikeMs && Get(l, StddevMs) == l.stddevMs
  {
  }

  lemma {:induction false} BoundsSpelled(l: Latency, lo: nat, hi: nat)
    ensures (forall k :: k in POSITIONS && Get(l, k).Some? ==> lo <= Get(l, k).value <= hi) <==>
      && (l.ms.Some? ==> lo <= l.ms.value <= hi) && (l.minMs.Some? ==> lo <= l.minMs.value <= hi)
      && (l.maxMs.Some? ==> lo <= l.maxMs.value <= hi) && (l.meanMs.Some? ==> lo <= l.meanMs.value <= hi)
      && (l.baseMs.Some? ==> lo <= l.baseMs.value <= hi) && (l.spikeMs.Some? ==> lo <= l.spikeMs.value <= hi)
  {
    GottenKnobs(l);
    assert POSITIONS[0] == Ms && POSITIONS[1] == MinMs && POSITIONS[2] == MaxMs;
    assert POSITIONS[3] == MeanMs && POSITIONS[4] == BaseMs && POSITIONS[5] == SpikeMs;
    assert Ms in POSITIONS && MinMs in POSITIONS && MaxMs in POSITIONS;
    assert MeanMs in POSITIONS && BaseMs in POSITIONS && SpikeMs in POSITIONS;
  }

  // ----- the whole virtual SMSC -----

  predicate DlrAccepted(d: Dlr) {
    && (d.clock.Unstated? || d.clock.Logical?)
    && d.distribution.Fixed? && d.ticks.Some? && d.ticks.value >= 1 && d.minTicks.None? && d.maxTicks.None?
    && WeightsAccepted(d)
  }

  predicate EdgesAccepted(sc: Scenario) {
    sc.edges.Some? ==> sc.edgesEnabled && (sc.edges.value.everyTicks.Some? ==> sc.edges.value.everyTicks.value >= 1)
  }

  predicate ScenarioAccepted(sc: Scenario, walk: seq<Code>)
    requires ListsMix(walk, sc.params)
  {
    && ParamsAccepted(sc.profile, sc.params, walk)
    && LatencyAccepted(sc.latency, LatencyWindow(sc.profile).0, LatencyWindow(sc.profile).1)
    && (sc.dlr.Some? ==> DlrAccepted(sc.dlr.value))
    && EdgesAccepted(sc)
  }

  const FLUSH_MS_MAX: int := 600_000

  /** Seeded means reproducible: no wall-clock limit and no transition into a throughput profile. */
  predicate SeedRules(c: Setup) {
    && (c.limit.Some? ==> c.limit.value >= 1)
    && (c.flushMs.Some? ==> 1 <= c.flushMs.value <= FLUSH_MS_MAX)
    && (c.seed.Some? && c.limit.Some? ==> c.scenario.profile in {ThrottlingCarrier, ThroughputCapped})
    && (c.seed.Some? ==> forall i :: 0 <= i < |c.transitions| ==> c.transitions[i].what !in {ThrottlingCarrier, ThroughputCapped})
  }

  predicate SetupAccepted(c: Setup, walk: seq<Code>)
    requires ListsMix(walk, c.scenario.params)
  {
    SeedRules(c) && ScenarioAccepted(c.scenario, walk)
  }

  lemma {:induction false} SumOfThree(a: nat, b: nat, c: nat)
    ensures Sum([a, b, c]) == a + b + c
  {
    assert [a, b, c][1..] == [b, c] && [b, c][1..] == [c] && [c][1..] == [];
    assert Sum([c]) == c && Sum([b, c]) == b + c;
  }

  method ValidateDlr(d: Dlr) returns (errs: seq<Fault>)
    ensures errs == [] <==> DlrAccepted(d)
  {
    errs := [];
    if d.clock.Wallclock? || d.clock.OtherClock? {
      errs := [InvalidEnum(DlrClock)];
    }
    if !d.distribution.Fixed? {
      errs := errs + [InvalidEnum(DlrDistribution)];
    } else if d.ticks.None? {
      errs := errs + [Missing(DlrTicks)];
    } else if d.ticks.value < 1 {
      errs := errs + [OutOfBounds(DlrTicks)];
    }
    if d.minTicks.Some? {
      errs := errs + [NotExposed(DlrMinTicks)];
    }
    if d.maxTicks.Some? {
      errs := errs + [NotExposed(DlrMaxTicks)];
    }
    var ws := [d.delivered, d.failed, d.expired];
    SumOfThree(d.delivered, d.failed, d.expired);
    assert ws[0] == d.delivered && ws[1] == d.failed && ws[2] == d.expired;
    var fault := ValidateWeights(ws);
    if fault.Some? {
      errs := errs + [OutOfBounds(Field.DlrWeights)];
    }
  }

  method ValidateScenario(sc: Scenario, walk: seq<Code>) returns (errs: seq<Fault>)
    requires ListsMix(walk, sc.params)
    ensures errs == [] <==> ScenarioAccepted(sc, walk)
  {
    errs := ValidateParams(sc.profile, sc.params, walk);
    var latency := ValidateLatency(sc.latency, sc.profile);
    errs := errs + latency;
    if sc.dlr.Some? {
      var dlr := ValidateDlr(sc.dlr.value);
      errs := errs + dlr;
    }
    if sc.edges.Some? {
      if !sc.edgesEnabled {
        errs := errs + [NotExposed(EdgeBlock)];
      } else if sc.edges.value.everyTicks.Some? && sc.edges.value.everyTicks.value < 1 {
        errs := errs + [OutOfBounds(EdgeTicks)];
      }
    }
  }

  method ValidateSetup(c: Setup, walk: seq<Code>) returns (errs: seq<Fault>)
    requires ListsMix(walk, c.scenario.params)
    ensures errs == [] <==> SetupAccepted(c, walk)
  {
    errs := [];
    if c.limit.Some? && c.limit.value < 1 {
      errs := errs + [OutOfBounds(Limit)];
    }
    if c.flushMs.Some? && (c.flushMs.value < 1 || c.flushMs.value > FLUSH_MS_MAX) {
      errs := errs + [OutOfBounds(FlushMs)];
    }
    if c.seed.Some? && c.limit.Some? && !Capped(c.scenario.profile) {
      errs := errs + [SeededThroughputLimit(Limit)];
    }
    if c.seed.Some? {
      ghost var before := errs == [];
      for i := 0 to |c.transitions|
        invariant errs == [] <==> before && forall j :: 0 <= j < i ==> !Capped(c.transitions[j].what)
      {
        if Capped(c.transitions[i].what) {
          errs := errs + [SeededThroughputLimit(Transition(i))];
        }
      }
    }
    var scenario := ValidateScenario(c.scenario, walk);
    errs := errs + scenario;
  }

  // ----- what acceptance guarantees -----

  /** Acceptance of a mix does not depend on the order in which the map is walked. */
  lemma {:induction false} AcceptedAnyWalk(mix: map<Code, nat>, a: seq<Code>, b: seq<Code>)
    requires Lists(a, mix) && Lists(b, mix)
    ensures Accepted(mix, a) == Accepted(mix, b)
  {
    OrderIndependent(mix, a, b);
    SortTotal(mix, a);
    SortTotal(mix, b);
    TotalIsSum(mix, a);
    TotalIsSum(mix, b);
  }

  /** Of the draws below the last bound, exactly the weight of `v` select `v`. */
  predicate DrawsAsWeighted<T(==)>(mix: seq<Bounded<T>>, v: T, weight: nat) {
    mix != [] && mix[|mix| - 1].cum > 0 && Hits(mix, v, 0, mix[|mix| - 1].cum) == weight
  }

  lemma {:induction false} AcceptsAnyWalk(sc: Scenario, walk: seq<Code>, walk': seq<Code>)
    requires ListsMix(walk, sc.params) && ListsMix(walk', sc.params) && ScenarioAccepted(sc, walk)
    ensures Accepts(sc, walk')
  {
    if sc.params.errorMix.Some? {
      AcceptedAnyWalk(sc.params.errorMix.value, walk, walk');
    }
  }

  /**
    The engine of an accepted scenario, whatever order it walks the error mix in: of the draws it makes
    exactly w(c) answer the status of code c, and exactly w(o) plan a receipt of outcome o.
  */
  lemma {:induction false} AcceptedScenarioDraws(sc: Scenario, limit: Option<int>, walk: seq<Code>, walk': seq<Code>)
    requires ListsMix(walk, sc.params) && ListsMix(walk', sc.params) && ScenarioAccepted(sc, walk)
    ensures Ready(New(sc, limit, walk'))
    ensures sc.params.errorMix.Some? ==>
      var mix := sc.params.errorMix.value;
      forall c :: IsErrorCode(c) ==> DrawsAsWeighted(New(sc, limit, walk').errorMix, StatusFor(c), if c in mix then mix[c] else 0)
    ensures sc.dlr.Some? ==> forall o :: DrawsAsWeighted(New(sc, limit, walk').dlr.value.mix, o, WeightOn(sc.dlr.value, o))
  {
    AcceptsAnyWalk(sc, walk, walk');
    NewReady(sc, limit, walk');
    if sc.params.errorMix.Some? {
      forall c | IsErrorCode(c)
        ensures DrawsAsWeighted(New(sc, limit, walk').errorMix, StatusFor(c),
                                if c in sc.params.errorMix.value then sc.params.errorMix.value[c] else 0) {
        ErrorMixExact(sc.params.errorMix.value, walk', c);
      }
    }
    if sc.dlr.Some? {
      FlattenedTotal(ScenarioEngine.DlrWeights(sc.dlr.value), 0);
      forall o ensures DrawsAsWeighted(New(sc, limit, walk').dlr.value.mix, o, WeightOn(sc.dlr.value, o)) {
        DlrMixExact(sc.dlr.value, o);
      }
    }
  }

  /** The engines of an accepted setup can be built and drawn from in every process, whatever order it walks the error mix in. */
  lemma {:induction false} AcceptedBuilds(c: Setup, walk: seq<Code>, walk': seq<Code>)
    requires ListsMix(walk, c.scenario.params) && ListsMix(walk', c.scenario.params) && SetupAccepted(c, walk)
    ensures Buildable(c.scenario, walk') && SetupAccepted(c, walk')
  {
    if c.scenario.params.errorMix.Some? {
      AcceptedAnyWalk(c.scenario.params.errorMix.value, walk, walk');
    }
  }

  /**
    An accepted seeded setup that starts outside the throughput profiles never meets the wall clock: no
    gate, and no engine that would want one.
  */
  lemma {:induction false} SeededNeverThrottled(c: Setup, walk: seq<Code>)
    requires ListsMix(walk, c.scenario.params)
    requires SetupAccepted(c, walk) && c.seed.Some? && !Capped(c.scenario.profile)
    ensures GateFree(c)
    ensures forall q :: q in EnginesOf(c, walk) ==> !Capped(q) && EffectiveCap(EnginesOf(c, walk)[q]).None?
  {
  }

  /**
    Acceptance makes the run reproducible: for an accepted seeded setup that starts outside the
    throughput profiles the two-run theorem holds, with no bound on the delay or the number of submits.
  */
  lemma {:induction false} AcceptedSeedReplays<S>(c: Setup, q: Party<S>, p: Process<S>, p': Process<S>, inputs: seq<Input>, inputs': seq<Input>)
    requires Buildable(c.scenario, p.walk) && Buildable(c.scenario, p'.walk)
    requires SetupAccepted(c, p.walk) && c.seed.Some? && !Capped(c.scenario.profile)
    requires SameSubs(c.disconnects, Subs(inputs), Subs(inputs'))
    ensures
      var s, s' := BindRun(c, q, p, inputs), BindRun(c, q, p', inputs');
      var receipts, messages := Plans(s.live.log), B.MessagesOf(B.Start(c.messages).pending);
      && SameLive(s.live, s'.live)
      && EmitsThePlan(s.sched, receipts, messages) && EmitsThePlan(s'.sched, receipts, messages)
  {
    SeededNeverThrottled(c, p.walk);
    SameSeedSameRun(c, c, q, p, p', inputs, inputs');
  }

  /** The configured latencies other than the normal ones stay in the profile's window, and so far below any overflow. */
  lemma {:induction false} LatencyStaysInWindow<S>(l: Latency, p: Profile, t: nat, src: Source<S>, s: S)
    requires LatencyAccepted(l, LatencyWindow(p).0, LatencyWindow(p).1) && l.distribution != Normal
    ensures InWindow(p, LatencyMs(l, t, src, s).0) && LatencyMs(l, t, src, s).0 <= LATENCY_MS_MAX
  {
    var k := Needed(l.distribution);
    assert forall i :: 0 <= i < |k| ==> Get(l, k[i]).Some?;
    assert forall q :: q in POSITIONS && Get(l, q).Some? ==> InWindow(p, Get(l, q).value);
    match l.distribution
    case Fixed => assert k[0] == Ms && Ms in POSITIONS && Get(l, Ms) == l.ms;
    case Uniform =>
      assert k[0] == MinMs && MinMs in POSITIONS && Get(l, MinMs) == l.minMs;
      assert k[1] == MaxMs && MaxMs in POSITIONS && Get(l, MaxMs) == l.maxMs;
    case Spike =>
      assert k[0] == BaseMs && BaseMs in POSITIONS && Get(l, BaseMs) == l.baseMs;
      assert k[1] == SpikeMs && SpikeMs in POSITIONS && Get(l, SpikeMs) == l.spikeMs;
  }
}
