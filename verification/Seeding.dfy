/** How a bind's generator and its schedule base start: derived from the seed, the name and the ordinal, or from chaos. */
module Seeding {
  import opened Wrappers
  import opened Prng
  import Rng

  /** Where the schedule base of a bind comes from: derived under a seed, any word in chaos mode. */
  datatype Origin = Derived(seed: bv64, nameHash: bv64, ordinal: nat) | Chaos(base: bv64)

  function OrdinalWord(n: nat): bv64 {
    (n % TWO_64) as bv64
  }

  function BaseOf(o: Origin): bv64 {
    match o
    case Derived(seed, nameHash, ordinal) => Rng.ScheduleBase(seed, nameHash, OrdinalWord(ordinal))
    case Chaos(base) => base
  }

  /** The coins of the binds of a program: a function of where a bind's base comes from and of the tick, and nothing else. */
  type Coins = (Origin, nat) -> bool

  /** The coins this program flips. */
  function DrawnCoins(): Coins {
    (o: Origin, t: nat) => Rng.ScheduleCoin(BaseOf(o), OrdinalWord(t))
  }

  function CoinOn(coins: Coins, o: Origin): nat -> bool {
    (t: nat) => coins(o, t)
  }

  /** A generator that starts from two seed words, seeded the way this program derives them. */
  function FromWords<S>(start: ((bv64, bv64)) -> S, src: Source<S>): Source<S> {
    src.(seeded := (seed: bv64, nameHash: bv64, ordinal: nat) => start(Rng.DeriveSeed(seed, nameHash, OrdinalWord(ordinal))))
  }

  /** Under one seed and name two binds of a program whose generator tells seed words apart never start in one state. */
  lemma {:induction false} BindsStartApart<S>(start: ((bv64, bv64)) -> S, src: Source<S>, seed: bv64, nameHash: bv64, i: nat, j: nat)
    requires forall a, b :: start(a) == start(b) ==> a == b
    requires FromWords(start, src).seeded(seed, nameHash, i) == FromWords(start, src).seeded(seed, nameHash, j)
    ensures OrdinalWord(i) == OrdinalWord(j)
  {
    var a, b := Rng.DeriveSeed(seed, nameHash, OrdinalWord(i)), Rng.DeriveSeed(seed, nameHash, OrdinalWord(j));
    assert start(a) == start(b);
    Rng.BindsNeverShareSeeds(seed, nameHash, OrdinalWord(i), OrdinalWord(j));
  }
}
