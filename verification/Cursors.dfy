/**
  The two tick-keyed cursors of a bind: scheduled transitions, applied before a submit is
  evaluated, and scheduled disconnects, peeked before the response and consumed after it.
*/
module Cursors {
  import opened Wrappers
  import opened Schema

  /** A config entry anchored at a tick. */
  datatype Entry<+T> = Entry(at: nat, what: T)

  datatype Scope = ScopeAll | ScopeOldest | ScopeRandom
  datatype When = BeforeResponse | AfterResponse
  datatype Cut = Cut(scope: Scope, when: When)

  // ----- stable order by tick -----

  predicate ByTick<T>(es: seq<Entry<T>>) {
    forall i, j :: 0 <= i < j < |es| ==> es[i].at <= es[j].at
  }

  /** Puts `e` behind every entry at its tick or earlier. */
  function InsertStable<T>(es: seq<Entry<T>>, e: Entry<T>): seq<Entry<T>> {
    if es == [] || es[|es| - 1].at <= e.at then es + [e]
    else InsertStable(es[..|es| - 1], e) + [es[|es| - 1]]
  }

  /** The stably ordered copy a session makes at bind. */
  function SortedByTick<T>(es: seq<Entry<T>>): seq<Entry<T>> {
    if es == [] then [] else InsertStable(SortedByTick(es[..|es| - 1]), es[|es| - 1])
  }

  lemma {:induction false} InsertHolds<T>(es: seq<Entry<T>>, e: Entry<T>)
    ensures multiset(InsertStable(es, e)) == multiset(es) + multiset{e}
  {
    if es != [] && es[|es| - 1].at > e.at {
      InsertHolds(es[..|es| - 1], e);
      assert es == es[..|es| - 1] + [es[|es| - 1]];
    }
  }

  lemma {:induction false} InsertBelow<T>(es: seq<Entry<T>>, e: Entry<T>, bound: nat)
    requires e.at <= bound && forall i :: 0 <= i < |es| ==> es[i].at <= bound
    ensures forall i :: 0 <= i < |InsertStable(es, e)| ==> InsertStable(es, e)[i].at <= bound
  {
    if es != [] && es[|es| - 1].at > e.at {
      InsertBelow(es[..|es| - 1], e, bound);
    }
  }

  lemma {:induction false} InsertKeeps<T>(es: seq<Entry<T>>, e: Entry<T>)
    requires ByTick(es)
    ensures ByTick(InsertStable(es, e)) && multiset(InsertStable(es, e)) == multiset(es) + multiset{e}
  {
    InsertHolds(es, e);
    if es != [] && es[|es| - 1].at > e.at {
      var front, last := es[..|es| - 1], es[|es| - 1];
      forall i | 0 <= i < |front| ensures front[i].at <= last.at {
        assert es[i].at <= es[|es| - 1].at;
      }
      InsertBelow(front, e, last.at);
      InsertKeeps(front, e);
    }
  }

  lemma {:induction false} SortKeeps<T>(es: seq<Entry<T>>)
    ensures ByTick(SortedByTick(es)) && multiset(SortedByTick(es)) == multiset(es)
  {
    if es != [] {
      SortKeeps(es[..|es| - 1]);
      InsertKeeps(SortedByTick(es[..|es| - 1]), es[|es| - 1]);
      assert es == es[..|es| - 1] + [es[|es| - 1]];
    }
  }

  lemma {:induction false} SameEntries<T>(es: seq<Entry<T>>)
    ensures ByTick(SortedByTick(es)) && forall d :: d in es <==> d in SortedByTick(es)
  {
    SortKeeps(es);
    forall d ensures d in es <==> d in SortedByTick(es) {
      assert d in es <==> d in multiset(es);
      assert d in SortedByTick(es) <==> d in multiset(SortedByTick(es));
    }
  }

  /** Where a cursor at `c` stops once the clock has reached `tick`. */
  function Advance<T>(es: seq<Entry<T>>, c: nat, tick: nat): (r: nat)
    requires c <= |es|
    ensures c <= r <= |es|
    decreases |es| - c
  {
    if c < |es| && es[c].at <= tick then Advance(es, c + 1, tick) else c
  }

  lemma {:induction false} AdvanceExact<T>(es: seq<Entry<T>>, c: nat, tick: nat)
    requires c <= |es|
    ensures forall i :: c <= i < Advance(es, c, tick) ==> es[i].at <= tick
    ensures Advance(es, c, tick) < |es| ==> es[Advance(es, c, tick)].at > tick
    decreases |es| - c
  {
    if c < |es| && es[c].at <= tick {
      AdvanceExact(es, c + 1, tick);
    }
  }

  // ----- transitions -----

  /** Entry `i` is the last one reached at tick `t`: the latest tick, and the latest in config order at that tick. */
  predicate LatestReached<T>(es: seq<Entry<T>>, t: nat, i: int) {
    && 0 <= i < |es| && es[i].at <= t
    && forall j :: 0 <= j < |es| && es[j].at <= t ==> es[j].at < es[i].at || (es[j].at == es[i].at && j <= i)
  }

  /** The last entry of the ordered copy that the clock has reached. */
  function LastDue<T>(es: seq<Entry<T>>, t: nat): Option<Entry<T>> {
    if es == [] then None
    else if es[|es| - 1].at <= t then Some(es[|es| - 1])
    else LastDue(es[..|es| - 1], t)
  }

  /** The entry in force once `e` is configured behind those that put `r` in force. */
  function Newer<T>(r: Option<Entry<T>>, e: Entry<T>, t: nat): Option<Entry<T>> {
    if e.at <= t && (r.None? || r.value.at <= e.at) then Some(e) else r
  }

  lemma {:induction false} LastDueInsert<T>(es: seq<Entry<T>>, e: Entry<T>, t: nat)
    requires ByTick(es)
    ensures LastDue(InsertStable(es, e), t) == Newer(LastDue(es, t), e, t)
  {
    LastDueBound(es, t);
    if es == [] || es[|es| - 1].at <= e.at {
      assert (es + [e])[..|es|] == es;
    } else {
      var front, last := es[..|es| - 1], es[|es| - 1];
      LastDueInsert(front, e, t);
      assert InsertStable(es, e)[..|InsertStable(es, e)| - 1] == InsertStable(front, e);
    }
  }

  lemma {:induction false} LastDueBound<T>(es: seq<Entry<T>>, t: nat)
    requires ByTick(es)
    ensures LastDue(es, t).Some? ==> es != [] && LastDue(es, t).value.at <= es[|es| - 1].at && LastDue(es, t).value.at <= t
  {
    if es != [] && es[|es| - 1].at > t && |es| > 1 {
      LastDueBound(es[..|es| - 1], t);
      assert es[|es| - 2].at <= es[|es| - 1].at;
    }
  }

  /** `r` is the latest entry of the config reached at `t`, or none is reached. */
  ghost predicate IsLatest<T>(es: seq<Entry<T>>, t: nat, r: Option<Entry<T>>) {
    if r.None? then forall j :: 0 <= j < |es| ==> es[j].at > t
    else exists i :: LatestReached(es, t, i) && es[i] == r.value
  }

  lemma {:induction false} ReachedStays<T>(es: seq<Entry<T>>, t: nat, i: nat)
    requires es != [] && LatestReached(es[..|es| - 1], t, i)
    requires es[|es| - 1].at > t || es[|es| - 1].at < es[i].at
    ensures LatestReached(es, t, i)
  {
    var front := es[..|es| - 1];
    forall j | 0 <= j < |es| && es[j].at <= t ensures es[j].at < es[i].at || (es[j].at == es[i].at && j <= i) {
      assert j < |front| ==> front[j] == es[j];
    }
  }

  lemma {:induction false} ReachedLast<T>(es: seq<Entry<T>>, t: nat)
    requires es != [] && es[|es| - 1].at <= t
    requires forall j :: 0 <= j < |es| && es[j].at <= t ==> es[j].at <= es[|es| - 1].at
    ensures LatestReached(es, t, |es| - 1)
  {
  }

  lemma {:induction false} LatestExtends<T>(es: seq<Entry<T>>, t: nat, r: Option<Entry<T>>)
    requires es != [] && IsLatest(es[..|es| - 1], t, r)
    ensures IsLatest(es, t, Newer(r, es[|es| - 1], t))
  {
    var front, last := es[..|es| - 1], es[|es| - 1];
    assert forall j :: 0 <= j < |front| ==> front[j] == es[j];
    if r.Some? {
      var i :| LatestReached(front, t, i) && front[i] == r.value;
      if last.at <= t && r.value.at <= last.at {
        ReachedLast(es, t);
      } else {
        ReachedStays(es, t, i);
      }
    } else if last.at <= t {
      ReachedLast(es, t);
    }
  }

  lemma {:induction false} LastDueSorted<T>(es: seq<Entry<T>>, t: nat)
    requires es != []
    ensures LastDue(SortedByTick(es), t) == Newer(LastDue(SortedByTick(es[..|es| - 1]), t), es[|es| - 1], t)
  {
    SortKeeps(es[..|es| - 1]);
    LastDueInsert(SortedByTick(es[..|es| - 1]), es[|es| - 1], t);
  }

  /** The ordered copy's last reached entry is the config's latest reached one, and there is one as soon as any entry is reached. */
  lemma {:induction false} LastDueIsLatest<T>(es: seq<Entry<T>>, t: nat)
    ensures IsLatest(es, t, LastDue(SortedByTick(es), t))
  {
    if es != [] {
      LastDueIsLatest(es[..|es| - 1], t);
      LastDueSorted(es, t);
      LatestExtends(es, t, LastDue(SortedByTick(es[..|es| - 1]), t));
    }
  }

  lemma {:induction false} LastDueAtCursor<T>(es: seq<Entry<T>>, t: nat, c: nat)
    requires ByTick(es) && c <= |es|
    requires forall i :: 0 <= i < c ==> es[i].at <= t
    requires c < |es| ==> es[c].at > t
    ensures LastDue(es, t) == if c == 0 then None else Some(es[c - 1])
  {
    if c < |es| {
      assert es[c].at <= es[|es| - 1].at;
      LastDueAtCursor(es[..|es| - 1], t, c);
    }
  }

  // ----- disconnects -----

  /** Whether entry `d` cuts this bind; `coin` is the bind's idempotent per-tick draw, `oldest` what the registry says now. */
  predicate Targets(d: Entry<Cut>, coin: nat -> bool, oldest: bool) {
    match d.what.scope
    case ScopeAll => true
    case ScopeOldest => oldest
    case ScopeRandom => coin(d.at)
  }

  /** A due entry from the cursor on cuts this bind before the response. */
  predicate Peek(ds: seq<Entry<Cut>>, c: nat, t: nat, coin: nat -> bool, oldest: bool) {
    exists i :: c <= i < |ds| && ds[i].at <= t && ds[i].what.when.BeforeResponse? && Targets(ds[i], coin, oldest)
  }

  /** An entry consumed between the two cursors cuts this bind. */
  predicate Hit(ds: seq<Entry<Cut>>, c: nat, c': nat, coin: nat -> bool, oldest: bool)
    requires c' <= |ds|
  {
    exists i :: c <= i < c' && Targets(ds[i], coin, oldest)
  }

  /**
    The registry is asked once per entry of scope oldest, and may answer each time as it stands then:
    `answers(i)` is what it says about entry i. The peek and the consumption depend on those answers
    only in whether one of them was yes.
  */
  predicate AnyYes(ds: seq<Entry<Cut>>, c: nat, c': nat, peeked: bool, answers: nat -> bool)
    requires c' <= |ds|
  {
    exists i :: c <= i < c' && ds[i].what.scope.ScopeOldest? && (peeked ==> ds[i].what.when.BeforeResponse?) && answers(i)
  }

  lemma {:induction false} PeekByEntry(ds: seq<Entry<Cut>>, c: nat, t: nat, coin: nat -> bool, answers: nat -> bool)
    requires ByTick(ds) && c <= |ds|
    ensures Peek(ds, c, t, coin, AnyYes(ds, c, Advance(ds, c, t), true, answers))
            <==> exists i :: c <= i < |ds| && ds[i].at <= t && ds[i].what.when.BeforeResponse? && Targets(ds[i], coin, answers(i))
  {
    var c' := Advance(ds, c, t);
    AdvanceExact(ds, c, t);
    forall i | c' <= i < |ds| ensures ds[i].at > t {
      assert ds[c'].at <= ds[i].at;
    }
    if i :| c <= i < |ds| && ds[i].at <= t && ds[i].what.when.BeforeResponse? && Targets(ds[i], coin, answers(i)) {
      assert ds[i].what.scope.ScopeOldest? ==> AnyYes(ds, c, c', true, answers);
      assert Targets(ds[i], coin, AnyYes(ds, c, c', true, answers));
    }
  }

  lemma {:induction false} HitByEntry(ds: seq<Entry<Cut>>, c: nat, c': nat, coin: nat -> bool, answers: nat -> bool)
    requires c <= c' <= |ds|
    ensures Hit(ds, c, c', coin, AnyYes(ds, c, c', false, answers)) <==> exists i :: c <= i < c' && Targets(ds[i], coin, answers(i))
  {
    if i :| c <= i < c' && Targets(ds[i], coin, answers(i)) {
      assert ds[i].what.scope.ScopeOldest? ==> AnyYes(ds, c, c', false, answers);
      assert Targets(ds[i], coin, AnyYes(ds, c, c', false, answers));
    }
  }

  /** One answer given throughout. */
  lemma {:induction false} SteadyPeek(ds: seq<Entry<Cut>>, c: nat, t: nat, coin: nat -> bool, yes: bool)
    requires ByTick(ds) && c <= |ds|
    ensures Peek(ds, c, t, coin, AnyYes(ds, c, Advance(ds, c, t), true, (i: nat) => yes)) == Peek(ds, c, t, coin, yes)
  {
    PeekByEntry(ds, c, t, coin, (i: nat) => yes);
  }

  lemma {:induction false} SteadyHit(ds: seq<Entry<Cut>>, c: nat, c': nat, coin: nat -> bool, yes: bool)
    requires c <= c' <= |ds|
    ensures Hit(ds, c, c', coin, AnyYes(ds, c, c', false, (i: nat) => yes)) == Hit(ds, c, c', coin, yes)
  {
    HitByEntry(ds, c, c', coin, (i: nat) => yes);
  }

  class BindCursors {
    const engines: set<Profile>
    const transitions: seq<Entry<Profile>>
    const disconnects: seq<Entry<Cut>>
    var transitionCursor: nat
    var current: Profile
    var disconnectCursor: nat
    var closed: bool

    ghost predicate Valid()
      reads this
    {
      && ByTick(transitions) && ByTick(disconnects)
      && transitionCursor <= |transitions| && disconnectCursor <= |disconnects|
      && (forall i :: 0 <= i < |transitions| ==> transitions[i].what in engines)
    }

    /** A bind starts on the initial profile with its own ordered copies of the configured entries. */
    constructor (initial: Profile, engines: set<Profile>, ts: seq<Entry<Profile>>, ds: seq<Entry<Cut>>)
      requires forall i :: 0 <= i < |ts| ==> ts[i].what in engines
      ensures Valid() && !closed && current == initial && transitionCursor == disconnectCursor == 0
      ensures transitions == SortedByTick(ts) && disconnects == SortedByTick(ds) && this.engines == engines
    {
      SortKeeps(ts);
      SortKeeps(ds);
      var sorted := SortedByTick(ts);
      forall i | 0 <= i < |sorted| ensures sorted[i].what in engines {
        assert sorted[i] in multiset(sorted);
        assert sorted[i] in ts;
      }
      this.engines := engines;
      transitions, disconnects := sorted, SortedByTick(ds);
      transitionCursor, disconnectCursor := 0, 0;
      current, closed := initial, false;
    }

    method ApplyDueTransitions(tick: nat)
      requires Valid()
      modifies this`transitionCursor, this`current
      ensures Valid()
      ensures transitionCursor == Advance(transitions, old(transitionCursor), tick)
      ensures current == if transitionCursor == old(transitionCursor) then old(current)
                         else transitions[transitionCursor - 1].what
    {
      while transitionCursor < |transitions| && transitions[transitionCursor].at <= tick
        invariant Valid() && old(transitionCursor) <= transitionCursor
        invariant Advance(transitions, transitionCursor, tick) == Advance(transitions, old(transitionCursor), tick)
        invariant current == if transitionCursor == old(transitionCursor) then old(current)
                             else transitions[transitionCursor - 1].what
      {
        // a target without an engine would be ignored; buildEngines leaves none
        if transitions[transitionCursor].what in engines {
          current := transitions[transitionCursor].what;
        }
        transitionCursor := transitionCursor + 1;
      }
    }

    /** Peeks, without consuming: does a due entry cut this bind before the response? The registry is asked entry by entry. */
    method DueDisconnectBeforeResponse(clock: nat, coin: nat -> bool, answers: nat -> bool) returns (cut: bool)
      requires Valid()
      ensures cut <==> Peek(disconnects, disconnectCursor, clock, coin,
                            AnyYes(disconnects, disconnectCursor, Advance(disconnects, disconnectCursor, clock), true, answers))
      ensures cut <==> exists i ::
                && disconnectCursor <= i < |disconnects| && disconnects[i].at <= clock && disconnects[i].what.when.BeforeResponse?
                && (disconnects[i].what.scope.ScopeAll?
                    || (disconnects[i].what.scope.ScopeRandom? && coin(disconnects[i].at))
                    || (disconnects[i].what.scope.ScopeOldest? && answers(i)))
    {
      PeekByEntry(disconnects, disconnectCursor, clock, coin, answers);
      var i := disconnectCursor;
      while i < |disconnects|
        invariant disconnectCursor <= i <= |disconnects|
        invariant forall k :: disconnectCursor <= k < i ==>
                    !(disconnects[k].what.when.BeforeResponse? && Targets(disconnects[k], coin, answers(k)))
      {
        if disconnects[i].at > clock {
          break;
        }
        if disconnects[i].what.when.BeforeResponse? && Targets(disconnects[i], coin, answers(i)) {
          return true;
        }
        i := i + 1;
      }
      return false;
    }

    method ApplyDueDisconnects(tick: nat, coin: nat -> bool, answers: nat -> bool)
      requires Valid()
      modifies this`disconnectCursor, this`closed
      ensures Valid()
      ensures disconnectCursor == Advance(disconnects, old(disconnectCursor), tick)
      ensures closed <==> old(closed) || Hit(disconnects, old(disconnectCursor), disconnectCursor, coin,
                                             AnyYes(disconnects, old(disconnectCursor), disconnectCursor, false, answers))
      ensures closed <==> old(closed) || exists i ::
                && old(disconnectCursor) <= i < disconnectCursor
                && (disconnects[i].what.scope.ScopeAll?
                    || (disconnects[i].what.scope.ScopeRandom? && coin(disconnects[i].at))
                    || (disconnects[i].what.scope.ScopeOldest? && answers(i)))
    {
      while disconnectCursor < |disconnects| && disconnects[disconnectCursor].at <= tick
        invariant Valid() && old(disconnectCursor) <= disconnectCursor
        invariant Advance(disconnects, disconnectCursor, tick) == Advance(disconnects, old(disconnectCursor), tick)
        invariant closed <==>
          old(closed) || exists i :: old(disconnectCursor) <= i < disconnectCursor && Targets(disconnects[i], coin, answers(i))
      {
        var i := disconnectCursor;
        disconnectCursor := disconnectCursor + 1;
        if Targets(disconnects[i], coin, answers(i)) {
          closed := true;
        }
      }
      HitByEntry(disconnects, old(disconnectCursor), disconnectCursor, coin, answers);
    }
  }

  // ----- the disconnect schedule over a whole run -----

  /** Whether the registry answers a submit that its bind is the oldest for some entry asked about: at the peek, then at the consumption. */
  datatype Asked = Asked(peek: bool, consume: bool)

  /** What the schedule has done to a bind: still open with its cursor, or cut at a tick, the response withheld or not. */
  datatype Life = Open(cursor: nat) | CutAt(tick: nat, withheld: bool)

  /** The submit at tick `t`: peek, answer unless cut, then consume. */
  function TickLife(ds: seq<Entry<Cut>>, life: Life, t: nat, coin: nat -> bool, a: Asked): Life
    requires life.Open? ==> life.cursor <= |ds|
  {
    if life.CutAt? then life
    else if Peek(ds, life.cursor, t, coin, a.peek) then CutAt(t, true)
    else
      var c := Advance(ds, life.cursor, t);
      if Hit(ds, life.cursor, c, coin, a.consume) then CutAt(t, false) else Open(c)
  }

  /** One tick per answer, of a bind whose configured entries are `es`. */
  function LifeAfter(es: seq<Entry<Cut>>, asked: seq<Asked>, coin: nat -> bool): (l: Life)
    ensures l.Open? ==> l.cursor <= |SortedByTick(es)|
    decreases |asked|
  {
    if asked == [] then Open(0)
    else TickLife(SortedByTick(es), LifeAfter(es, asked[..|asked| - 1], coin), |asked|, coin, asked[|asked| - 1])
  }

  /** The one tick at which entry `d` can cut: the first to reach it. */
  function FirstTick(d: Entry<Cut>): nat {
    if d.at == 0 then 1 else d.at
  }

  /**
    What the entries ask for, scope by scope. The response is withheld for a before_response entry: of scope
    all; of scope random on the bind's coin; of scope oldest on the answer at the peek.
  */
  predicate Withholds(d: Entry<Cut>, coin: nat -> bool, a: Asked) {
    && d.what.when.BeforeResponse?
    && (d.what.scope.ScopeAll? || (d.what.scope.ScopeRandom? && coin(d.at)) || (d.what.scope.ScopeOldest? && a.peek))
  }

  /** The link is cut for those, and for any other entry likewise, one of scope oldest on the answer at the consumption. */
  predicate Cuts(d: Entry<Cut>, coin: nat -> bool, a: Asked) {
    || Withholds(d, coin, a)
    || d.what.scope.ScopeAll? || (d.what.scope.ScopeRandom? && coin(d.at)) || (d.what.scope.ScopeOldest? && a.consume)
  }

  /** No entry first reached at one of the ticks answered cuts. */
  ghost predicate Spared(es: seq<Entry<Cut>>, asked: seq<Asked>, coin: nat -> bool) {
    forall d :: d in es && FirstTick(d) <= |asked| ==> !Cuts(d, coin, asked[FirstTick(d) - 1])
  }

  /**
    A bind is cut at the first tick that reaches an entry cutting it then, never earlier or later,
    and its response is withheld exactly when an entry reached there says so.
  */
  ghost predicate CutOnTime(es: seq<Entry<Cut>>, asked: seq<Asked>, coin: nat -> bool, l: Life) {
    match l
    case Open(_) => Spared(es, asked, coin)
    case CutAt(t, withheld) =>
      && 1 <= t <= |asked| && Spared(es, asked[..t - 1], coin)
      && (exists d :: d in es && FirstTick(d) == t && Cuts(d, coin, asked[t - 1]))
      && (withheld <==> exists d :: d in es && FirstTick(d) == t && Withholds(d, coin, asked[t - 1]))
  }

  /** The cursor of an open bind stands behind exactly the entries reached. */
  predicate CursorBehind(ds: seq<Entry<Cut>>, c: nat, n: nat) {
    && c <= |ds| && (n == 0 ==> c == 0)
    && (forall i :: 0 <= i < c ==> ds[i].at <= n)
    && (forall i :: c <= i < |ds| && n > 0 ==> ds[i].at > n)
  }

  /** Between the cursors stand exactly the entries first reached at tick `n`. */
  lemma {:induction false} ReachedNow(ds: seq<Entry<Cut>>, c: nat, n: nat, i: nat)
    requires ByTick(ds) && n >= 1 && CursorBehind(ds, c, n - 1) && i < |ds|
    ensures c <= i < Advance(ds, c, n) <==> FirstTick(ds[i]) == n
    ensures c <= i && ds[i].at <= n <==> FirstTick(ds[i]) == n
  {
    var c' := Advance(ds, c, n);
    AdvanceExact(ds, c, n);
    if c' <= i {
      assert ds[c'].at <= ds[i].at;
    }
  }

  lemma {:induction false} CursorMoves(ds: seq<Entry<Cut>>, c: nat, n: nat)
    requires ByTick(ds) && n >= 1 && CursorBehind(ds, c, n - 1)
    ensures CursorBehind(ds, Advance(ds, c, n), n)
  {
    var c' := Advance(ds, c, n);
    AdvanceExact(ds, c, n);
    forall i | c' <= i < |ds| ensures ds[i].at > n {
      assert ds[c'].at <= ds[i].at;
    }
  }

  /** The peek of tick `n` finds exactly an entry first reached then that withholds. */
  lemma {:induction false} PeekExact(ds: seq<Entry<Cut>>, c: nat, n: nat, coin: nat -> bool, a: Asked)
    requires ByTick(ds) && n >= 1 && CursorBehind(ds, c, n - 1)
    ensures Peek(ds, c, n, coin, a.peek) <==> exists d :: d in ds && FirstTick(d) == n && Withholds(d, coin, a)
  {
    if Peek(ds, c, n, coin, a.peek) {
      var i :| c <= i < |ds| && ds[i].at <= n && ds[i].what.when.BeforeResponse? && Targets(ds[i], coin, a.peek);
      ReachedNow(ds, c, n, i);
      assert ds[i] in ds && Withholds(ds[i], coin, a);
    }
    forall d | d in ds && FirstTick(d) == n && Withholds(d, coin, a) ensures Peek(ds, c, n, coin, a.peek) {
      var i :| 0 <= i < |ds| && ds[i] == d;
      ReachedNow(ds, c, n, i);
    }
  }

  /** The consumption of tick `n` finds exactly an entry first reached then that targets the bind. */
  lemma {:induction false} HitExact(ds: seq<Entry<Cut>>, c: nat, n: nat, coin: nat -> bool, a: Asked)
    requires ByTick(ds) && n >= 1 && CursorBehind(ds, c, n - 1)
    ensures Hit(ds, c, Advance(ds, c, n), coin, a.consume) <==> exists d :: d in ds && FirstTick(d) == n && Targets(d, coin, a.consume)
  {
    var c' := Advance(ds, c, n);
    if Hit(ds, c, c', coin, a.consume) {
      var i :| c <= i < c' && Targets(ds[i], coin, a.consume);
      ReachedNow(ds, c, n, i);
      assert ds[i] in ds;
    }
    forall d | d in ds && FirstTick(d) == n && Targets(d, coin, a.consume) ensures Hit(ds, c, c', coin, a.consume) {
      var i :| 0 <= i < |ds| && ds[i] == d;
      ReachedNow(ds, c, n, i);
    }
  }

  lemma {:induction false} SparedOneMore(es: seq<Entry<Cut>>, asked: seq<Asked>, coin: nat -> bool)
    requires asked != [] && Spared(es, asked[..|asked| - 1], coin)
    requires forall d :: d in es && FirstTick(d) == |asked| ==> !Cuts(d, coin, asked[|asked| - 1])
    ensures Spared(es, asked, coin)
  {
    forall d | d in es && FirstTick(d) <= |asked| ensures !Cuts(d, coin, asked[FirstTick(d) - 1]) {
      if FirstTick(d) < |asked| {
        assert asked[..|asked| - 1][FirstTick(d) - 1] == asked[FirstTick(d) - 1];
      }
    }
  }

  lemma {:induction false} TickOnTime(ds: seq<Entry<Cut>>, c: nat, asked: seq<Asked>, coin: nat -> bool)
    requires ByTick(ds) && asked != [] && CursorBehind(ds, c, |asked| - 1) && Spared(ds, asked[..|asked| - 1], coin)
    ensures
      var l := TickLife(ds, Open(c), |asked|, coin, asked[|asked| - 1]);
      CutOnTime(ds, asked, coin, l) && (l.Open? ==> CursorBehind(ds, l.cursor, |asked|))
  {
    var n, a := |asked|, asked[|asked| - 1];
    PeekExact(ds, c, n, coin, a);
    HitExact(ds, c, n, coin, a);
    CursorMoves(ds, c, n);
    if TickLife(ds, Open(c), n, coin, a).Open? {
      SparedOneMore(ds, asked, coin);
    }
  }

  lemma {:induction false} CutOnTimeSorted(es: seq<Entry<Cut>>, asked: seq<Asked>, coin: nat -> bool)
    ensures
      var ds, l := SortedByTick(es), LifeAfter(es, asked, coin);
      CutOnTime(ds, asked, coin, l) && (l.Open? ==> CursorBehind(ds, l.cursor, |asked|))
    decreases |asked|
  {
    SortKeeps(es);
    if asked != [] {
      var before := asked[..|asked| - 1];
      CutOnTimeSorted(es, before, coin);
      var l := LifeAfter(es, before, coin);
      if l.Open? {
        TickOnTime(SortedByTick(es), l.cursor, asked, coin);
      } else {
        assert before[..l.tick - 1] == asked[..l.tick - 1] && before[l.tick - 1] == asked[l.tick - 1];
      }
    }
  }

  /** Stated on the entries as configured, in any order: whatever the registry answers, the schedule cuts on time. */
  lemma {:induction false} DisconnectsOnTime(es: seq<Entry<Cut>>, asked: seq<Asked>, coin: nat -> bool)
    ensures CutOnTime(es, asked, coin, LifeAfter(es, asked, coin))
  {
    CutOnTimeSorted(es, asked, coin);
    SameEntries(es);
  }

  /**
    The same, entry by entry. A bind is open exactly when, of the entries reached, none is of scope all, none of
    scope random has the coin, and none of scope oldest was answered yes; and it is cut at the tick of one that is not so.
  */
  lemma {:induction false} ScopesDecide(es: seq<Entry<Cut>>, asked: seq<Asked>, coin: nat -> bool)
    ensures LifeAfter(es, asked, coin).Open? <==>
      forall d :: d in es && FirstTick(d) <= |asked| ==>
        && !d.what.scope.ScopeAll?
        && (d.what.scope.ScopeRandom? ==> !coin(d.at))
        && (d.what.scope.ScopeOldest? ==>
              && !asked[FirstTick(d) - 1].consume
              && (d.what.when.BeforeResponse? ==> !asked[FirstTick(d) - 1].peek))
    ensures
      var l := LifeAfter(es, asked, coin);
      l.CutAt? ==> 1 <= l.tick <= |asked| && LifeAfter(es, asked[..l.tick - 1], coin).Open? && !LifeAfter(es, asked[..l.tick], coin).Open?
    ensures
      var l := LifeAfter(es, asked, coin);
      l.CutAt? ==>
        (l.withheld <==> exists d ::
          && d in es && FirstTick(d) == l.tick && d.what.when.BeforeResponse?
          && (d.what.scope.ScopeAll?
              || (d.what.scope.ScopeRandom? && coin(d.at))
              || (d.what.scope.ScopeOldest? && asked[l.tick - 1].peek)))
  {
    DisconnectsOnTime(es, asked, coin);
    var l := LifeAfter(es, asked, coin);
    if l.CutAt? {
      CutSince(es, asked, coin);
    }
  }

  /** A bind cut at a tick was open before that tick and is cut from it on. */
  lemma {:induction false} CutSince(es: seq<Entry<Cut>>, asked: seq<Asked>, coin: nat -> bool)
    requires LifeAfter(es, asked, coin).CutAt?
    ensures
      var t := LifeAfter(es, asked, coin).tick;
      && 1 <= t <= |asked|
      && LifeAfter(es, asked[..t - 1], coin).Open? && LifeAfter(es, asked[..t], coin) == LifeAfter(es, asked, coin)
    decreases |asked|
  {
    var before := asked[..|asked| - 1];
    if LifeAfter(es, before, coin).CutAt? {
      CutSince(es, before, coin);
      var t := LifeAfter(es, asked, coin).tick;
      assert before[..t - 1] == asked[..t - 1] && before[..t] == asked[..t];
    } else {
      assert asked[..|asked|] == asked;
    }
  }

  // ----- the transition cursor over a whole run -----

  /** The profile in force at tick n >= 1 when ticks 1..n were applied in turn. */
  function ProfileAt(es: seq<Entry<Profile>>, initial: Profile, n: nat): (r: (Profile, nat))
    ensures r.1 <= |SortedByTick(es)|
  {
    if n == 0 then (initial, 0) else
    var (p, c) := ProfileAt(es, initial, n - 1);
    var c' := Advance(SortedByTick(es), c, n);
    (if c' == c then p else SortedByTick(es)[c' - 1].what, c')
  }

  /** `c` stands behind exactly the entries reached at tick `n`, and `p` is the profile the last of them put in force. */
  predicate InForceBehind(ds: seq<Entry<Profile>>, initial: Profile, n: nat, c: nat, p: Profile) {
    && c <= |ds| && (forall i :: 0 <= i < c ==> ds[i].at <= n) && (c < |ds| ==> ds[c].at > n)
    && p == if c == 0 then initial else ds[c - 1].what
  }

  lemma {:induction false} CursorStep(ds: seq<Entry<Profile>>, initial: Profile, n: nat, c: nat, p: Profile)
    requires n > 0 && c <= |ds| && (forall i :: 0 <= i < c ==> ds[i].at < n)
    requires p == if c == 0 then initial else ds[c - 1].what
    ensures var c' := Advance(ds, c, n); InForceBehind(ds, initial, n, c', if c' == c then p else ds[c' - 1].what)
  {
    AdvanceExact(ds, c, n);
  }

  lemma {:induction false} CursorAt(es: seq<Entry<Profile>>, initial: Profile, n: nat)
    requires n > 0
    ensures InForceBehind(SortedByTick(es), initial, n, ProfileAt(es, initial, n).1, ProfileAt(es, initial, n).0)
  {
    var (p, c) := ProfileAt(es, initial, n - 1);
    if n > 1 {
      CursorAt(es, initial, n - 1);
    }
    CursorStep(SortedByTick(es), initial, n, c, p);
  }

  lemma {:induction false} InForceAtCursor(ds: seq<Entry<Profile>>, initial: Profile, t: nat, c: nat, p: Profile)
    requires ByTick(ds) && InForceBehind(ds, initial, t, c, p)
    ensures p == if LastDue(ds, t).None? then initial else LastDue(ds, t).value.what
  {
    LastDueAtCursor(ds, t, c);
  }

  lemma {:induction false} ProfileIsLast(es: seq<Entry<Profile>>, initial: Profile, t: nat)
    requires t >= 1
    ensures var r := LastDue(SortedByTick(es), t);
            ProfileAt(es, initial, t).0 == if r.None? then initial else r.value.what
  {
    var (p, c) := ProfileAt(es, initial, t);
    CursorAt(es, initial, t);
    SortKeeps(es);
    InForceAtCursor(SortedByTick(es), initial, t, c, p);
  }

  /** Every tick is evaluated under the last configured transition reached, in stable order; under the initial profile if none is. */
  lemma {:induction false} TransitionsInForce(es: seq<Entry<Profile>>, initial: Profile, t: nat)
    requires t >= 1
    ensures
      var p := ProfileAt(es, initial, t).0;
      || ((forall j :: 0 <= j < |es| ==> es[j].at > t) && p == initial)
      || (exists i :: LatestReached(es, t, i) && p == es[i].what)
  {
    ProfileIsLast(es, initial, t);
    LastDueIsLatest(es, t);
    InForceByLatest(es, t, LastDue(SortedByTick(es), t), ProfileAt(es, initial, t).0, initial);
  }

  lemma {:induction false} InForceByLatest(es: seq<Entry<Profile>>, t: nat, r: Option<Entry<Profile>>, p: Profile, initial: Profile)
    requires IsLatest(es, t, r) && p == if r.None? then initial else r.value.what
    ensures
      || ((forall j :: 0 <= j < |es| ==> es[j].at > t) && p == initial)
      || (exists i :: LatestReached(es, t, i) && p == es[i].what)
  {
    if r.Some? {
      var i :| LatestReached(es, t, i) && es[i] == r.value;
      assert p == es[i].what;
    }
  }
}
