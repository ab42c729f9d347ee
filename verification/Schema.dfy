/** An already decoded configuration of one virtual SMSC: absent optional values are None. */
module Schema {
  import opened Wrappers

  type Code = string

  /** The frozen catalogue of scenario profiles. */
  datatype Profile = Healthy | FlakyCarrier | ThrottlingCarrier | DeadCarrier | SlowCarrier | ThroughputCapped

  datatype Mode = RejectBind | TimeoutAll

  /** Unset is the empty or unknown name, as a bare engine carries it. */
  datatype Distribution = Unset | Fixed | Uniform | Normal | Spike

  datatype Params = Params(
    successRate: Option<real>, errorMix: Option<map<Code, nat>>, disconnectInterval: Option<nat>,
    throughputCap: Option<int>, errorCode: Option<Code>, mode: Option<Mode>)

  datatype Latency = Latency(
    distribution: Distribution, ms: Option<nat>, minMs: Option<nat>, maxMs: Option<nat>, meanMs: Option<nat>,
    stddevMs: Option<nat>, baseMs: Option<nat>, spikeMs: Option<nat>, interval: Option<nat>)

  /** Unstated is the omitted name, OtherClock an unknown one. */
  datatype Clock = Unstated | Logical | Wallclock | OtherClock

  /** The delay is fixed ticks; the bounds belong to a delay distribution not supported yet. */
  datatype Dlr = Dlr(
    distribution: Distribution, ticks: Option<nat>, minTicks: Option<nat>, maxTicks: Option<nat>,
    delivered: nat, failed: nat, expired: nat, clock: Clock)

  datatype DlrOutcome = Delivered | NotDelivered | Expired

  datatype EdgeKind = BadLength | UnknownCommandId | BadSequence

  datatype Edges = Edges(everyTicks: Option<nat>, kinds: seq<EdgeKind>)

  datatype Scenario = Scenario(
    profile: Profile, params: Params, latency: Latency, dlr: Option<Dlr>, edgesEnabled: bool, edges: Option<Edges>)

  const NO_PARAMS := Params(None, None, None, None, None, None)
  const NO_LATENCY := Latency(Unset, None, None, None, None, None, None, None, None)

  /** A profile with nothing configured beside it. */
  function Bare(p: Profile): Scenario {
    Scenario(p, NO_PARAMS, NO_LATENCY, None, false, None)
  }
}
