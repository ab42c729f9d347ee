/** A bind's random source as an abstract state machine, and the served latency drawn from it. */
module Prng {
  import opened Wrappers
  import opened Schema

  /** Any generator: what it draws from a state and the state it moves to; `seeded` starts it for a seed, a name's hash and a bind's ordinal. */
  datatype Source<!S> = Source(
    seeded: (bv64, bv64, nat) -> S, word: (S, nat) -> (nat, S), float: S -> (real, S), gauss: S -> (real, S))

  /** A word below `n`; drawing below zero is an error of the caller. */
  function Uint64N<S>(src: Source<S>, s: S, n: nat): (r: (nat, S))
    requires n > 0
    ensures r.0 < n
  {
    var (w, s') := src.word(s, n);
    (w % n, s')
  }

  /** A fraction in [0, 1). */
  function Float64<S>(src: Source<S>, s: S): (r: (real, S))
    ensures 0.0 <= r.0 < 1.0
  {
    var (f, s') := src.float(s);
    (f - f.Floor as real, s')
  }

  function Deref(p: Option<nat>): nat {
    if p.Some? then p.value else 0
  }

  /** The served latency of the submit at tick `t`, drawn from `s`. */
  function LatencyMs<S>(l: Latency, t: nat, src: Source<S>, s: S): (nat, S) {
    match l.distribution
    case Fixed => (Deref(l.ms), s)
    case Uniform =>
      var lo, hi := Deref(l.minMs), Deref(l.maxMs);
      if hi <= lo then (lo, s) else
      var (k, s') := Uint64N(src, s, hi - lo + 1);
      (lo + k, s')
    case Normal =>
      var (z, s') := src.gauss(s);
      var v := Deref(l.meanMs) as real + Deref(l.stddevMs) as real * z;
      (if v <= 0.0 then 0 else (v + 0.5).Floor, s')
    case Spike =>
      var interval := Deref(l.interval);
      (if interval != 0 && t % interval == 0 then Deref(l.spikeMs) else Deref(l.baseMs), s)
    case Unset => (0, s)
  }
}
