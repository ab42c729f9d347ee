/** Weighted picks: weights flattened to cumulative bounds, one draw selecting one value. */
module Picks {
  import opened Wrappers

  /** A value and the running weight up to and including it. */
  datatype Bounded<+T> = Bounded(value: T, cum: nat)

  datatype Weight<+T> = Weight(value: T, weight: nat)

  function Total<T>(ws: seq<Weight<T>>): nat {
    if ws == [] then 0 else ws[0].weight + Total(ws[1..])
  }

  /** The cumulative bounds over `ws`, on from `cum`; zero weights are dropped. */
  function Flatten<T>(ws: seq<Weight<T>>, cum: nat): seq<Bounded<T>>
    decreases |ws|
  {
    if ws == [] then []
    else if ws[0].weight == 0 then Flatten(ws[1..], cum)
    else [Bounded(ws[0].value, cum + ws[0].weight)] + Flatten(ws[1..], cum + ws[0].weight)
  }

  /** The same over a running sum that is a 64-bit word. */
  function Flatten64<T>(ws: seq<Weight<T>>, cum: nat): seq<Bounded<T>>
    decreases |ws|
  {
    if ws == [] then []
    else if ws[0].weight == 0 then Flatten64(ws[1..], cum)
    else
      var next := (cum + ws[0].weight) % TWO_64;
      [Bounded(ws[0].value, next)] + Flatten64(ws[1..], next)
  }

  /** A total in the range of the word is summed without wrapping. */
  lemma {:induction false} FlattenFits<T>(ws: seq<Weight<T>>, cum: nat)
    requires cum + Total(ws) < TWO_64
    ensures Flatten64(ws, cum) == Flatten(ws, cum)
    decreases |ws|
  {
    if ws != [] {
      FlattenFits(ws[1..], cum + ws[0].weight);
    }
  }

  /** The last bound is the wrapped total. */
  lemma {:induction false} Flatten64Total<T>(ws: seq<Weight<T>>, cum: nat)
    ensures var mix := Flatten64(ws, cum);
            if Total(ws) == 0 then mix == [] else mix != [] && mix[|mix| - 1].cum == (cum + Total(ws)) % TWO_64
    decreases |ws|
  {
    if ws != [] {
      var next := if ws[0].weight == 0 then cum else (cum + ws[0].weight) % TWO_64;
      Flatten64Total(ws[1..], next);
      AddModulo(cum + ws[0].weight, Total(ws[1..]));
    }
  }

  /** The value draw `n` selects: the first whose bound lies above it. */
  function Picked<T>(mix: seq<Bounded<T>>, n: nat): T
    requires mix != []
  {
    if n < mix[0].cum || |mix| == 1 then mix[0].value else Picked(mix[1..], n)
  }

  /** The running sum is a 64-bit word. */
  method BuildMix<T>(ws: seq<Weight<T>>) returns (out: seq<Bounded<T>>)
    ensures out == Flatten64(ws, 0)
    ensures Total(ws) < TWO_64 ==> out == Flatten(ws, 0)
  {
    out := [];
    var cum: nat := 0;
    for i := 0 to |ws|
      invariant out + Flatten64(ws[i..], cum) == Flatten64(ws, 0)
    {
      assert ws[i..][1..] == ws[i + 1..];
      if ws[i].weight != 0 {
        cum := (cum + ws[i].weight) % TWO_64;
        out := out + [Bounded(ws[i].value, cum)];
      }
    }
    if Total(ws) < TWO_64 {
      FlattenFits(ws, 0);
    }
  }

  method Pick<T>(mix: seq<Bounded<T>>, n: nat) returns (v: T)
    requires mix != []
    ensures v == Picked(mix, n)
  {
    for i := 0 to |mix|
      invariant i < |mix| ==> Picked(mix[i..], n) == Picked(mix, n)
      invariant i == |mix| ==> mix[|mix| - 1].value == Picked(mix, n)
    {
      if n < mix[i].cum {
        return mix[i].value;
      }
    }
    return mix[|mix| - 1].value;
  }

  /** How much of the weight in `ws` is on `v`. */
  function WeightOf<T(==)>(ws: seq<Weight<T>>, v: T): nat {
    if ws == [] then 0
    else (if ws[0].value == v then ws[0].weight else 0) + WeightOf(ws[1..], v)
  }

  /** How many of the draws in [lo, hi) select `v`. */
  function Hits<T(==)>(mix: seq<Bounded<T>>, v: T, lo: nat, hi: nat): nat
    requires mix != []
    decreases hi - lo
  {
    if lo >= hi then 0 else (if Picked(mix, lo) == v then 1 else 0) + Hits(mix, v, lo + 1, hi)
  }

  lemma {:induction false} HitsSplit<T>(mix: seq<Bounded<T>>, v: T, lo: nat, mid: nat, hi: nat)
    requires mix != [] && lo <= mid <= hi
    ensures Hits(mix, v, lo, hi) == Hits(mix, v, lo, mid) + Hits(mix, v, mid, hi)
    decreases mid - lo
  {
    if lo < mid {
      HitsSplit(mix, v, lo + 1, mid, hi);
    }
  }

  /** A stretch of draws that all select the first entry. */
  lemma {:induction false} HitsFirst<T>(mix: seq<Bounded<T>>, v: T, lo: nat, hi: nat)
    requires mix != [] && lo <= hi <= mix[0].cum
    ensures Hits(mix, v, lo, hi) == if mix[0].value == v then hi - lo else 0
    decreases hi - lo
  {
    if lo < hi {
      HitsFirst(mix, v, lo + 1, hi);
    }
  }

  /** A stretch of draws past the first entry. */
  lemma {:induction false} HitsRest<T>(mix: seq<Bounded<T>>, v: T, lo: nat, hi: nat)
    requires |mix| > 1 && mix[0].cum <= lo
    ensures Hits(mix, v, lo, hi) == Hits(mix[1..], v, lo, hi)
    decreases hi - lo
  {
    if lo < hi {
      HitsRest(mix, v, lo + 1, hi);
    }
  }

  lemma {:induction false} FlattenedTotal<T>(ws: seq<Weight<T>>, cum: nat)
    ensures var mix := Flatten(ws, cum);
            if Total(ws) == 0 then mix == [] else mix != [] && mix[|mix| - 1].cum == cum + Total(ws)
    decreases |ws|
  {
    if ws != [] {
      FlattenedTotal(ws[1..], cum + ws[0].weight);
    }
  }

  lemma {:induction false} NoWeight<T>(ws: seq<Weight<T>>, v: T)
    requires Total(ws) == 0
    ensures WeightOf(ws, v) == 0
  {
    if ws != [] {
      NoWeight(ws[1..], v);
    }
  }

  lemma {:induction false} PicksExactFrom<T>(ws: seq<Weight<T>>, cum: nat, v: T)
    requires Total(ws) > 0
    ensures Flatten(ws, cum) != [] && Hits(Flatten(ws, cum), v, cum, cum + Total(ws)) == WeightOf(ws, v)
    decreases |ws|
  {
    FlattenedTotal(ws, cum);
    var mix, w, hi := Flatten(ws, cum), ws[0].weight, cum + Total(ws);
    if w == 0 {
      PicksExactFrom(ws[1..], cum, v);
    } else {
      FlattenedTotal(ws[1..], cum + w);
      HitsSplit(mix, v, cum, cum + w, hi);
      HitsFirst(mix, v, cum, cum + w);
      if Total(ws[1..]) > 0 {
        PicksExactFrom(ws[1..], cum + w, v);
        assert mix[1..] == Flatten(ws[1..], cum + w);
        HitsRest(mix, v, cum + w, hi);
      } else {
        NoWeight(ws[1..], v);
      }
    }
  }

  /** Of the `total` equally likely draws exactly w(v) select `v`; a zero weight is never selected. */
  lemma {:induction false} PicksExact<T>(ws: seq<Weight<T>>, v: T)
    requires Total(ws) > 0
    ensures
      var mix := Flatten(ws, 0);
      && mix != [] && mix[|mix| - 1].cum == Total(ws)
      && Hits(mix, v, 0, Total(ws)) == WeightOf(ws, v)
  {
    FlattenedTotal(ws, 0);
    PicksExactFrom(ws, 0, v);
  }

  lemma {:induction false} HitCounts<T>(mix: seq<Bounded<T>>, n: nat, lo: nat, hi: nat)
    requires mix != [] && lo <= n < hi
    ensures Hits(mix, Picked(mix, n), lo, hi) > 0
    decreases n - lo
  {
    if lo < n {
      HitCounts(mix, n, lo + 1, hi);
    }
  }

  /** Whatever is drawn, the value selected carries weight. */
  lemma {:induction false} PickedHasWeight<T>(ws: seq<Weight<T>>, n: nat)
    requires n < Total(ws)
    ensures Flatten(ws, 0) != [] && WeightOf(ws, Picked(Flatten(ws, 0), n)) > 0
  {
    FlattenedTotal(ws, 0);
    var v := Picked(Flatten(ws, 0), n);
    PicksExact(ws, v);
    HitCounts(Flatten(ws, 0), n, 0, Total(ws));
  }

  // ----- validated weights -----

  const WEIGHT_MAX: nat := 1_000_000_000

  datatype WeightFault = TooHeavy(weight: nat) | ZeroSum

  function Sum(ws: seq<nat>): nat {
    if ws == [] then 0 else ws[0] + Sum(ws[1..])
  }

  /** Refuses the first weight above the maximum, then a zero sum; the sum is a 64-bit word. */
  method ValidateWeights(ws: seq<nat>) returns (fault: Option<WeightFault>)
    ensures fault.None? <==> (forall i :: 0 <= i < |ws| ==> ws[i] <= WEIGHT_MAX) && Sum(ws) % TWO_64 != 0
    ensures fault.Some? && fault.value.TooHeavy? ==>
              exists i :: 0 <= i < |ws| && ws[i] == fault.value.weight > WEIGHT_MAX && forall j :: 0 <= j < i ==> ws[j] <= WEIGHT_MAX
    ensures fault == Some(ZeroSum) ==> Sum(ws) % TWO_64 == 0
  {
    var sum: nat := 0;
    assert ws[0..] == ws;
    for i := 0 to |ws|
      invariant forall j :: 0 <= j < i ==> ws[j] <= WEIGHT_MAX
      invariant (sum + Sum(ws[i..])) % TWO_64 == Sum(ws) % TWO_64 && sum < TWO_64
    {
      if ws[i] > WEIGHT_MAX {
        return Some(TooHeavy(ws[i]));
      }
      assert ws[i..][1..] == ws[i + 1..];
      AddModulo(sum + ws[i], Sum(ws[i + 1..]));
      sum := (sum + ws[i]) % TWO_64;
    }
    if sum == 0 {
      return Some(ZeroSum);
    }
    return None;
  }

  lemma {:induction false} AddModulo(a: nat, b: nat)
    ensures (a % TWO_64 + b) % TWO_64 == (a + b) % TWO_64
  {
    var q := a / TWO_64;
    assert a + b == q * TWO_64 + (a % TWO_64 + b);
  }

  /** Bounding each weight keeps the word from wrapping: a list of fewer than 2^34 weights passes exactly when it is bounded and not all zero. */
  lemma {:induction false} BoundedSum(ws: seq<nat>)
    requires forall i :: 0 <= i < |ws| ==> ws[i] <= WEIGHT_MAX
    ensures Sum(ws) <= |ws| * WEIGHT_MAX
    ensures |ws| < 0x4_0000_0000 ==> Sum(ws) < TWO_64
  {
    if ws != [] {
      BoundedSum(ws[1..]);
    }
  }
}
