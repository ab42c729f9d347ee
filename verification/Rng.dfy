/** Seed derivation: 64-bit mixing that never lets two binds of a virtual SMSC share a stream or a schedule base. */
module Rng {

  // The golden-ratio increment and the two finaliser multipliers, each with its inverse modulo 2^64.

  function AddGamma(x: bv64): bv64 { x + 0x9E3779B97F4A7C15 }
  function SubGamma(x: bv64): bv64 { x - 0x9E3779B97F4A7C15 }
  function TimesGamma(x: bv64): bv64 { 0x9E3779B97F4A7C15 * x }
  function OverGamma(x: bv64): bv64 { x * 0xF1DE83E19937733D }
  function Times1(x: bv64): bv64 { x * 0xBF58476D1CE4E5B9 }
  function Over1(x: bv64): bv64 { x * 0x96DE1B173F119089 }
  function Times2(x: bv64): bv64 { x * 0x94D049BB133111EB }
  function Over2(x: bv64): bv64 { x * 0x319642B2D24D8EC3 }

  // The xor-shifts and their inverses.

  function Fold30(x: bv64): bv64 { x ^ (x >> 30) }
  function Unfold30(x: bv64): bv64 { x ^ (x >> 30) ^ (x >> 60) }
  function Fold27(x: bv64): bv64 { x ^ (x >> 27) }
  function Unfold27(x: bv64): bv64 { x ^ (x >> 27) ^ (x >> 54) }
  function Fold31(x: bv64): bv64 { x ^ (x >> 31) }
  function Unfold31(x: bv64): bv64 { x ^ (x >> 31) ^ (x >> 62) }

  function SplitMix64(x: bv64): bv64 {
    Fold31(Times2(Fold27(Times1(Fold30(AddGamma(x))))))
  }

  /** The steps of SplitMix64 undone in reverse. */
  function Unmix64(y: bv64): bv64 {
    SubGamma(Unfold30(Over1(Unfold27(Over2(Unfold31(y))))))
  }

  const SCHEDULE_SALT: bv64 := 0x5350_4C49_5401

  /** Where in the mixer's domain bind `ordinal` starts, given the first seed word. */
  function Offset(lo: bv64, ordinal: bv64): bv64 {
    AddOne(Folded(lo, TimesGamma(ordinal)))
  }

  function AddOne(x: bv64): bv64 { x + 1 }
  function SubOne(x: bv64): bv64 { x - 1 }

  /** The two PCG seed words of a bind; `nameHash` is the FNV-1a hash of the virtual SMSC's name. */
  function DeriveSeed(seed: bv64, nameHash: bv64, ordinal: bv64): (bv64, bv64) {
    var lo := SplitMix64(seed ^ nameHash);
    (lo, SplitMix64(Offset(lo, ordinal)))
  }

  /** Both words folded together: the first alone does not depend on the ordinal. */
  function Folded(lo: bv64, hi: bv64): bv64 {
    lo + hi
  }

  function ScheduleBase(seed: bv64, nameHash: bv64, ordinal: bv64): bv64 {
    var words := DeriveSeed(seed ^ SCHEDULE_SALT, nameHash, ordinal);
    SplitMix64(Folded(words.0, words.1))
  }

  /** The coin of a scope: random disconnect: a function of the base and the tick alone. */
  predicate ScheduleCoin(base: bv64, tick: bv64) {
    SplitMix64(base + SplitMix64(tick)) & 1 == 0
  }

  // ----- each mixing step is invertible: the words cancel, then the step opens to those words -----

  lemma {:induction false} Words30(x: bv64)
    ensures (x ^ (x >> 30)) ^ ((x ^ (x >> 30)) >> 30) ^ ((x ^ (x >> 30)) >> 60) == x
    ensures (x ^ (x >> 30) ^ (x >> 60)) ^ ((x ^ (x >> 30) ^ (x >> 60)) >> 30) == x
  {
  }

  lemma {:induction false} Undo30(x: bv64)
    ensures Unfold30(Fold30(x)) == x
  {
    assert Fold30(x) == x ^ (x >> 30);
    Words30(x);
  }

  lemma {:induction false} Redo30(x: bv64)
    ensures Fold30(Unfold30(x)) == x
  {
    assert Unfold30(x) == x ^ (x >> 30) ^ (x >> 60);
    Words30(x);
  }

  lemma {:induction false} Words27(x: bv64)
    ensures (x ^ (x >> 27)) ^ ((x ^ (x >> 27)) >> 27) ^ ((x ^ (x >> 27)) >> 54) == x
    ensures (x ^ (x >> 27) ^ (x >> 54)) ^ ((x ^ (x >> 27) ^ (x >> 54)) >> 27) == x
  {
  }

  lemma {:induction false} Undo27(x: bv64)
    ensures Unfold27(Fold27(x)) == x
  {
    assert Fold27(x) == x ^ (x >> 27);
    Words27(x);
  }

  lemma {:induction false} Redo27(x: bv64)
    ensures Fold27(Unfold27(x)) == x
  {
    assert Unfold27(x) == x ^ (x >> 27) ^ (x >> 54);
    Words27(x);
  }

  lemma {:induction false} Words31(x: bv64)
    ensures (x ^ (x >> 31)) ^ ((x ^ (x >> 31)) >> 31) ^ ((x ^ (x >> 31)) >> 62) == x
    ensures (x ^ (x >> 31) ^ (x >> 62)) ^ ((x ^ (x >> 31) ^ (x >> 62)) >> 31) == x
  {
  }

  lemma {:induction false} Undo31(x: bv64)
    ensures Unfold31(Fold31(x)) == x
  {
    assert Fold31(x) == x ^ (x >> 31);
    Words31(x);
  }

  lemma {:induction false} Redo31(x: bv64)
    ensures Fold31(Unfold31(x)) == x
  {
    assert Unfold31(x) == x ^ (x >> 31) ^ (x >> 62);
    Words31(x);
  }

  lemma {:induction false} Divide1(x: bv64)
    ensures Over1(Times1(x)) == x
  {
    assert Over1(Times1(x)) == Over1(x * 0xBF58476D1CE4E5B9);
    assert Over1(x * 0xBF58476D1CE4E5B9) == x * 0xBF58476D1CE4E5B9 * 0x96DE1B173F119089;
  }

  lemma {:induction false} Multiply1(x: bv64)
    ensures Times1(Over1(x)) == x
  {
    assert Times1(Over1(x)) == Times1(x * 0x96DE1B173F119089);
    assert Times1(x * 0x96DE1B173F119089) == x * 0x96DE1B173F119089 * 0xBF58476D1CE4E5B9;
  }

  lemma {:induction false} Divide2(x: bv64)
    ensures Over2(Times2(x)) == x
  {
    assert Over2(Times2(x)) == Over2(x * 0x94D049BB133111EB);
    assert Over2(x * 0x94D049BB133111EB) == x * 0x94D049BB133111EB * 0x319642B2D24D8EC3;
  }

  lemma {:induction false} Multiply2(x: bv64)
    ensures Times2(Over2(x)) == x
  {
    assert Times2(Over2(x)) == Times2(x * 0x319642B2D24D8EC3);
    assert Times2(x * 0x319642B2D24D8EC3) == x * 0x319642B2D24D8EC3 * 0x94D049BB133111EB;
  }

  lemma {:induction false} DivideGamma(x: bv64)
    ensures OverGamma(TimesGamma(x)) == x
  {
    assert OverGamma(TimesGamma(x)) == OverGamma(0x9E3779B97F4A7C15 * x);
    assert OverGamma(0x9E3779B97F4A7C15 * x) == 0x9E3779B97F4A7C15 * x * 0xF1DE83E19937733D;
  }

  lemma {:induction false} SubtractGamma(x: bv64)
    ensures SubGamma(AddGamma(x)) == x
  {
    assert SubGamma(AddGamma(x)) == SubGamma(x + 0x9E3779B97F4A7C15);
    assert SubGamma(x + 0x9E3779B97F4A7C15) == (x + 0x9E3779B97F4A7C15) - 0x9E3779B97F4A7C15;
  }

  lemma {:induction false} RestoreGamma(x: bv64)
    ensures AddGamma(SubGamma(x)) == x
  {
    assert AddGamma(SubGamma(x)) == AddGamma(x - 0x9E3779B97F4A7C15);
    assert AddGamma(x - 0x9E3779B97F4A7C15) == (x - 0x9E3779B97F4A7C15) + 0x9E3779B97F4A7C15;
  }

  lemma {:induction false} SubtractOne(x: bv64)
    ensures SubOne(AddOne(x)) == x
  {
    assert SubOne(AddOne(x)) == SubOne(x + 1);
    assert SubOne(x + 1) == (x + 1) - 1;
  }

  /** splitmix64 is a bijection on 64-bit words: Unmix64 inverts it on both sides. */
  lemma {:induction false} SplitMixBijective(x: bv64)
    ensures Unmix64(SplitMix64(x)) == x
    ensures SplitMix64(Unmix64(x)) == x
  {
    UnmixSplit(x);
    SplitUnmix(x);
  }

  lemma {:induction false} UnmixSplit(x: bv64)
    ensures Unmix64(SplitMix64(x)) == x
  {
    var a := AddGamma(x);
    var b := Times1(Fold30(a));
    var c := Times2(Fold27(b));
    Undo31(c);
    Divide2(Fold27(b));
    Undo27(b);
    Divide1(Fold30(a));
    Undo30(a);
    SubtractGamma(x);
  }

  lemma {:induction false} SplitUnmix(y: bv64)
    ensures SplitMix64(Unmix64(y)) == y
  {
    var c := Unfold31(y);
    var b := Unfold27(Over2(c));
    var a := Unfold30(Over1(b));
    RestoreGamma(a);
    Redo30(Over1(b));
    Multiply1(b);
    Redo27(Over2(c));
    Multiply2(c);
    Redo31(y);
  }

  lemma {:induction false} SplitMixInjective(x: bv64, y: bv64)
    requires SplitMix64(x) == SplitMix64(y)
    ensures x == y
  {
    UnmixSplit(x);
    UnmixSplit(y);
  }

  lemma {:induction false} GammaInjective(i: bv64, j: bv64)
    requires TimesGamma(i) == TimesGamma(j)
    ensures i == j
  {
    DivideGamma(i);
    DivideGamma(j);
  }

  function Unfolded(lo: bv64, sum: bv64): bv64 { sum - lo }

  lemma {:induction false} FoldedBack(lo: bv64, hi: bv64)
    ensures Unfolded(lo, Folded(lo, hi)) == hi
  {
    assert Unfolded(lo, Folded(lo, hi)) == Unfolded(lo, lo + hi);
    assert Unfolded(lo, lo + hi) == (lo + hi) - lo;
  }

  lemma {:induction false} OneInjective(x: bv64, y: bv64)
    requires AddOne(x) == AddOne(y)
    ensures x == y
  {
    SubtractOne(x);
    SubtractOne(y);
  }

  lemma {:induction false} FoldedInjective(lo: bv64, a: bv64, b: bv64)
    requires Folded(lo, a) == Folded(lo, b)
    ensures a == b
  {
    FoldedBack(lo, a);
    FoldedBack(lo, b);
  }

  lemma {:induction false} OffsetInjective(lo: bv64, i: bv64, j: bv64)
    requires Offset(lo, i) == Offset(lo, j)
    ensures i == j
  {
    OneInjective(Folded(lo, TimesGamma(i)), Folded(lo, TimesGamma(j)));
    FoldedInjective(lo, TimesGamma(i), TimesGamma(j));
    GammaInjective(i, j);
  }

  lemma {:induction false} SecondWordInjective(lo: bv64, i: bv64, j: bv64)
    requires SplitMix64(Offset(lo, i)) == SplitMix64(Offset(lo, j))
    ensures i == j
  {
    SplitMixInjective(Offset(lo, i), Offset(lo, j));
    OffsetInjective(lo, i, j);
  }

  lemma {:induction false} BaseInjective(lo: bv64, a: bv64, b: bv64)
    requires SplitMix64(Folded(lo, a)) == SplitMix64(Folded(lo, b))
    ensures a == b
  {
    SplitMixInjective(Folded(lo, a), Folded(lo, b));
    FoldedInjective(lo, a, b);
  }

  /** For one seed and name, distinct bind ordinals always have distinct PCG seeds. */
  lemma {:induction false} BindsNeverShareSeeds(seed: bv64, nameHash: bv64, i: bv64, j: bv64)
    requires DeriveSeed(seed, nameHash, i) == DeriveSeed(seed, nameHash, j)
    ensures i == j
  {
    SecondWordInjective(SplitMix64(seed ^ nameHash), i, j);
  }

  /** For one seed and name, distinct bind ordinals always have distinct schedule bases. */
  lemma {:induction false} BindsNeverShareBases(seed: bv64, nameHash: bv64, i: bv64, j: bv64)
    requires ScheduleBase(seed, nameHash, i) == ScheduleBase(seed, nameHash, j)
    ensures i == j
  {
    var p, q := DeriveSeed(seed ^ SCHEDULE_SALT, nameHash, i), DeriveSeed(seed ^ SCHEDULE_SALT, nameHash, j);
    BaseInjective(p.0, p.1, q.1);
    BindsNeverShareSeeds(seed ^ SCHEDULE_SALT, nameHash, i, j);
  }

  lemma {:induction false} CancelXor(a: bv64, b: bv64, h: bv64)
    requires a ^ h == b ^ h
    ensures a == b
  {
    calc {
      a;
      (a ^ h) ^ h;
      (b ^ h) ^ h;
      b;
    }
  }

  /** For one name, distinct configured seeds never lead to the same stream, whatever the ordinals. */
  lemma {:induction false} SeedsNeverShareStreams(seed: bv64, seed': bv64, nameHash: bv64, i: bv64, j: bv64)
    requires DeriveSeed(seed, nameHash, i).0 == DeriveSeed(seed', nameHash, j).0
    ensures seed == seed'
  {
    SplitMixInjective(seed ^ nameHash, seed' ^ nameHash);
    CancelXor(seed, seed', nameHash);
  }
}
