/** The throughput gate: a per-second cap over wall-clock windows opened by calls. Time is in nanoseconds. */
module Throughput {

  const SECOND: int := 1_000_000_000

  /** A window in progress: when it opened and how many calls it has seen. */
  datatype Window = Window(start: int, count: nat)

  /** Allow, as a function of the clock. */
  function Next(w: Window, now: int): Window {
    var open := if now - w.start >= SECOND then Window(now, 0) else w;
    open.(count := open.count + 1)
  }

  predicate Admitted(w: Window, now: int, cap: int) {
    Next(w, now).count <= cap
  }

  class WallWindow {
    const capPerSec: int
    var windowStart: int
    var count: nat

    /** The window start is the zero time, far more than a second before any real clock reading. */
    constructor (cap: int, zero: int)
      ensures capPerSec == cap && windowStart == zero && count == 0
    {
      capPerSec, windowStart, count := cap, zero, 0;
    }

    function State(): Window
      reads this
    {
      Window(windowStart, count)
    }

    method Allow(now: int) returns (ok: bool)
      modifies this
      ensures State() == Next(old(State()), now) && ok == Admitted(old(State()), now, capPerSec)
    {
      if now - windowStart >= SECOND {
        windowStart := now;
        count := 0;
      }
      count := count + 1;
      ok := count <= capPerSec;
    }
  }

  predicate NonDecreasing(ts: seq<int>) {
    forall i, j :: 0 <= i < j < |ts| ==> ts[i] <= ts[j]
  }

  /** The window after the calls at `ts`. */
  function After(w: Window, ts: seq<int>): Window
    decreases |ts|
  {
    if ts == [] then w else After(Next(w, ts[0]), ts[1..])
  }

  predicate Inside(t: int, from: int) {
    from <= t < from + SECOND
  }

  /** How many of the calls at `ts` are admitted in the second starting at `from`. */
  function AdmittedIn(w: Window, ts: seq<int>, cap: nat, from: int): nat
    decreases |ts|
  {
    if ts == [] then 0 else
    (if Inside(ts[0], from) && Admitted(w, ts[0], cap) then 1 else 0) + AdmittedIn(Next(w, ts[0]), ts[1..], cap, from)
  }

  /** How many of the calls at `ts` are admitted in all. */
  function AdmittedAll(w: Window, ts: seq<int>, cap: nat): nat
    decreases |ts|
  {
    if ts == [] then 0 else
    (if Admitted(w, ts[0], cap) then 1 else 0) + AdmittedAll(Next(w, ts[0]), ts[1..], cap)
  }

  function Room(w: Window, cap: nat): nat {
    if w.count < cap then cap - w.count else 0
  }

  function Min(a: nat, b: nat): nat {
    if a < b then a else b
  }

  /** Calls that all fall into the window in progress: the first ones are admitted, up to the room left. */
  lemma {:induction false} WithinWindow(w: Window, ts: seq<int>, cap: nat)
    requires forall i :: 0 <= i < |ts| ==> ts[i] - w.start < SECOND
    ensures AdmittedAll(w, ts, cap) == Min(Room(w, cap), |ts|)
    ensures After(w, ts) == w.(count := w.count + |ts|)
    decreases |ts|
  {
    if ts != [] {
      assert Next(w, ts[0]) == w.(count := w.count + 1);
      WithinWindow(Next(w, ts[0]), ts[1..], cap);
    }
  }

  /** A window opened by its first call admits exactly min(cap, calls) of the calls it sees. */
  lemma {:induction false} WindowAdmitsExactly(w: Window, ts: seq<int>, cap: nat)
    requires ts != [] && ts[0] - w.start >= SECOND
    requires forall i :: 0 <= i < |ts| ==> ts[i] - ts[0] < SECOND
    ensures AdmittedAll(w, ts, cap) == Min(cap, |ts|)
  {
    WithinWindow(Next(w, ts[0]), ts[1..], cap);
  }

  /** Past the window in progress when that window opened inside the interval: nothing opens again before its end. */
  lemma {:induction false} OneWindow(w: Window, ts: seq<int>, cap: nat, from: int)
    requires NonDecreasing(ts) && w.start >= from
    ensures AdmittedIn(w, ts, cap, from) <= Room(w, cap)
    decreases |ts|
  {
    if ts != [] {
      if ts[0] - w.start >= SECOND {
        NoneLeft(Next(w, ts[0]), ts[1..], cap, from, ts[0]);
      } else {
        OneWindow(Next(w, ts[0]), ts[1..], cap, from);
      }
    }
  }

  lemma {:induction false} NoneLeft(w: Window, ts: seq<int>, cap: nat, from: int, now: int)
    requires NonDecreasing([now] + ts) && now >= from + SECOND
    ensures AdmittedIn(w, ts, cap, from) == 0
    decreases |ts|
  {
    if ts != [] {
      assert ([now] + ts)[1] == ts[0] && ([now] + ts)[0] == now;
      forall i, j | 0 <= i < j < |[now] + ts[1..]| ensures ([now] + ts[1..])[i] <= ([now] + ts[1..])[j] {
        assert ([now] + ts)[if i == 0 then 0 else i + 1] <= ([now] + ts)[j + 1];
      }
      NoneLeft(Next(w, ts[0]), ts[1..], cap, from, now);
    }
  }

  /** Calls from `from` on meet the window in progress and at most one more. */
  lemma {:induction false} TwoWindows(w: Window, ts: seq<int>, cap: nat, from: int)
    requires NonDecreasing(ts) && forall i :: 0 <= i < |ts| ==> ts[i] >= from
    ensures AdmittedIn(w, ts, cap, from) <= Room(w, cap) + cap
    decreases |ts|
  {
    if ts != [] {
      var next := Next(w, ts[0]);
      if ts[0] - w.start >= SECOND {
        OneWindow(next, ts[1..], cap, from);
      } else {
        TwoWindows(next, ts[1..], cap, from);
      }
    }
  }

  /** A window opened before the interval has spent a slot on the call that opened it. */
  lemma {:induction false} BeforeInterval(w: Window, ts: seq<int>, cap: nat, from: int)
    requires NonDecreasing(ts) && w.count >= 1 && cap >= 1
    ensures AdmittedIn(w, ts, cap, from) <= 2 * cap - 1
    decreases |ts|
  {
    if ts != [] {
      if ts[0] >= from {
        TwoWindows(w, ts, cap, from);
      } else {
        BeforeInterval(Next(w, ts[0]), ts[1..], cap, from);
      }
    }
  }

  /** Over any run of a fresh gate with a non-decreasing clock, no second admits more than 2 * cap - 1 submits. */
  lemma {:induction false} SecondAdmitsAtMost(zero: int, ts: seq<int>, cap: nat, from: int)
    requires NonDecreasing(ts) && cap >= 1 && (ts != [] ==> ts[0] - zero >= SECOND)
    ensures AdmittedIn(Window(zero, 0), ts, cap, from) <= 2 * cap - 1
  {
    if ts != [] {
      var first := Next(Window(zero, 0), ts[0]);
      BeforeInterval(first, ts[1..], cap, from);
      if ts[0] >= from {
        OneWindow(first, ts[1..], cap, from);
      }
    }
  }

  function Repeat(t: int, n: nat): (ts: seq<int>)
    ensures |ts| == n && forall i :: 0 <= i < n ==> ts[i] == t
  {
    if n == 0 then [] else [t] + Repeat(t, n - 1)
  }

  lemma {:induction false} RepeatAdmitted(w: Window, t: int, n: nat, cap: nat, from: int, rest: seq<int>)
    requires Inside(t, from) && t - w.start < SECOND && w.count + n <= cap
    ensures AdmittedIn(w, Repeat(t, n) + rest, cap, from) == n + AdmittedIn(w.(count := w.count + n), rest, cap, from)
    decreases n
  {
    if n == 0 {
      assert [] + rest == rest;
    } else {
      assert (Repeat(t, n) + rest)[1..] == Repeat(t, n - 1) + rest;
      RepeatAdmitted(Next(w, t), t, n - 1, cap, from, rest);
    }
  }

  /** The bound is reached: a window opened just before the interval, filled late, then a full one. */
  lemma {:induction false} SecondBoundReached(zero: int, t: int, cap: nat)
    requires t - zero >= SECOND && cap >= 1
    ensures
      var ts := [t] + (Repeat(t + SECOND - 1, cap - 1) + Repeat(t + SECOND, cap));
      NonDecreasing(ts) && AdmittedIn(Window(zero, 0), ts, cap, t + 1) == 2 * cap - 1
  {
    var late, full := Repeat(t + SECOND - 1, cap - 1), Repeat(t + SECOND, cap);
    var ts := [t] + (late + full);
    assert ts[1..] == late + full;
    var w := Window(t, 1);
    RepeatAdmitted(w, t + SECOND - 1, cap - 1, cap, t + 1, full);
    var spent := Window(t, cap);
    assert full[1..] == Repeat(t + SECOND, cap - 1) && full[0] == t + SECOND;
    assert full[1..] + [] == full[1..];
    RepeatAdmitted(Window(t + SECOND, 1), t + SECOND, cap - 1, cap, t + 1, []);
  }
}
