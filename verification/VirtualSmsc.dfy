/**
  Any number of binds of one virtual SMSC interleaved: the counters they share, the registry of those
  bound, and the one log their submits are recorded in.
*/
module VirtualSmsc {
  import opened Wrappers
  import opened Cursors
  import R = Receipt

  /** The shared registry of bound sessions, keyed by bind ordinal. */
  class BindRegistry<Info> {
    var binds: map<nat, Info>

    constructor ()
      ensures binds == map[]
    {
      binds := map[];
    }

    method Add(id: nat, info: Info)
      modifies this
      ensures binds == old(binds)[id := info]
    {
      binds := binds[id := info];
    }

    method Remove(id: nat)
      modifies this
      ensures binds == old(binds) - {id}
    {
      binds := binds - {id};
    }

    /** Whether `id` is registered and no smaller id is. */
    method IsOldest(id: nat) returns (oldest: bool)
      ensures oldest <==> Oldest(binds.Keys, id)
    {
      var rest := binds.Keys;
      while rest != {}
        invariant rest <= binds.Keys
        invariant forall other :: other in binds && other !in rest ==> id <= other
        decreases |rest|
      {
        var other :| other in rest;
        assert other in binds;
        if other < id {
          return false;
        }
        rest := rest - {other};
      }
      return id in binds;
    }
  }

  predicate Oldest(ids: set<nat>, id: nat) {
    id in ids && forall other :: other in ids ==> id <= other
  }

  /** While any bind is registered exactly one is the oldest. */
  lemma {:induction false} OneOldest(ids: set<nat>) returns (id: nat)
    requires ids != {}
    ensures forall other :: Oldest(ids, other) <==> other == id
    decreases |ids|
  {
    var some :| some in ids;
    if ids == {some} {
      id := some;
    } else {
      var rest := ids - {some};
      assert ids == rest + {some} && rest != {};
      var least := OneOldest(rest);
      assert Oldest(rest, least);
      id := if some < least then some else least;
    }
  }

  // ----- interleaved binds -----

  /**
    Where the submit flow of a session stands between two accesses to what the binds share: recorded and
    about to ask about entry `next`, answered and consuming, with whether an entry consumed has cut it.
  */
  datatype Stage = Idle | Counted | Recorded(next: nat) | Answered(hit: bool) | Severed

  /** A session since its bind succeeded, with its own cursor over the scheduled disconnects. */
  datatype Sess = Sess(ordinal: nat, clock: nat, stage: Stage, registered: bool, open: bool, cursor: nat)

  datatype Record = Record(bind: nat, tick: nat, id: bytes)

  /** `cuts` lists, in order, the connections the scheduled disconnects cut. */
  datatype State = State(
    bindSeq: nat, logicalClock: nat, sessions: map<nat, Sess>, registry: set<nat>, log: seq<Record>, cuts: seq<nat>)

  /** The scheduled disconnects as configured, and the coin of each bind, by ordinal. */
  datatype Rules = Rules(entries: seq<Entry<Cut>>, coin: nat -> nat -> bool)

  /**
    One atomic step of connection `conn`. The peek asks about one entry a step and then answers; the
    consumption takes one entry a step and then settles.
  */
  datatype Event =
    | Bind(conn: nat) | Register(conn: nat) | Count(conn: nat) | Append(conn: nat)
    | Ask(conn: nat) | Answer(conn: nat) | Consume(conn: nat) | Settle(conn: nat) | Close(conn: nat)

  const INIT := State(0, 0, map[], {}, [], [])

  predicate Running(s: State, c: nat) {
    c in s.sessions && s.sessions[c].open
  }

  /** Entry `i` of the ordered copy is due at the session's clock. */
  predicate DueAt(r: Rules, x: Sess, i: nat) {
    i < |SortedByTick(r.entries)| && SortedByTick(r.entries)[i].at <= x.clock
  }

  predicate Can(r: Rules, s: State, e: Event) {
    match e
    case Bind(c) => c !in s.sessions
    case Register(c) => Running(s, c) && s.sessions[c].stage.Idle? && !s.sessions[c].registered && s.sessions[c].clock == 0
    case Count(c) => Running(s, c) && s.sessions[c].stage.Idle? && s.sessions[c].registered
    case Append(c) => Running(s, c) && s.sessions[c].stage.Counted?
    case Ask(c) => Running(s, c) && s.sessions[c].stage.Recorded? && DueAt(r, s.sessions[c], s.sessions[c].stage.next)
    case Answer(c) => Running(s, c) && s.sessions[c].stage.Recorded? && !DueAt(r, s.sessions[c], s.sessions[c].stage.next)
    case Consume(c) => Running(s, c) && s.sessions[c].stage.Answered? && DueAt(r, s.sessions[c], s.sessions[c].cursor)
    case Settle(c) => Running(s, c) && s.sessions[c].stage.Answered? && !DueAt(r, s.sessions[c], s.sessions[c].cursor)
    case Close(c) => Running(s, c) && !s.sessions[c].stage.Counted?
  }

  /** Entry `i` targets the session, on what the registry answers now. */
  predicate Aims(r: Rules, s: State, x: Sess, i: nat)
    requires i < |SortedByTick(r.entries)|
  {
    Targets(SortedByTick(r.entries)[i], r.coin(x.ordinal), Oldest(s.registry, x.ordinal))
  }

  /** Before the response: cut by a before_response entry that targets the bind, else on to the next entry. */
  function Asking(r: Rules, s: State, x: Sess): Sess
    requires x.stage.Recorded? && DueAt(r, x, x.stage.next)
  {
    var i := x.stage.next;
    x.(stage := if SortedByTick(r.entries)[i].what.when.BeforeResponse? && Aims(r, s, x, i) then Severed else Recorded(i + 1))
  }

  /** After it: the entry is consumed whatever it does, and the ones behind it too. */
  function Consuming(r: Rules, s: State, x: Sess): Sess
    requires x.stage.Answered? && DueAt(r, x, x.cursor)
  {
    x.(cursor := x.cursor + 1, stage := Answered(x.stage.hit || Aims(r, s, x, x.cursor)))
  }

  /** Session `c` becomes `x`, and is listed if that cut it. */
  function Became(s: State, c: nat, x: Sess): State {
    s.(sessions := s.sessions[c := x], cuts := if x.stage.Severed? then s.cuts + [c] else s.cuts)
  }

  function Do(r: Rules, s: State, e: Event): State
    requires Can(r, s, e)
  {
    match e
    case Bind(c) => s.(bindSeq := s.bindSeq + 1, sessions := s.sessions[c := Sess(s.bindSeq + 1, 0, Idle, false, true, 0)])
    case Register(c) =>
      var x := s.sessions[c];
      s.(sessions := s.sessions[c := x.(registered := true)], registry := s.registry + {x.ordinal})
    case Count(c) =>
      var x := s.sessions[c];
      s.(logicalClock := s.logicalClock + 1, sessions := s.sessions[c := x.(clock := x.clock + 1, stage := Counted)])
    case Append(c) =>
      var x := s.sessions[c];
      s.(log := s.log + [Record(x.ordinal, x.clock, R.MessageId(x.ordinal, x.clock))],
         sessions := s.sessions[c := x.(stage := Recorded(x.cursor))])
    case Ask(c) => Became(s, c, Asking(r, s, s.sessions[c]))
    case Answer(c) => Became(s, c, s.sessions[c].(stage := Answered(false)))
    case Consume(c) => Became(s, c, Consuming(r, s, s.sessions[c]))
    case Settle(c) => Became(s, c, s.sessions[c].(stage := if s.sessions[c].stage.hit then Severed else Idle))
    case Close(c) =>
      var x := s.sessions[c];
      s.(sessions := s.sessions[c := x.(open := false)], registry := s.registry - {x.ordinal})
  }

  function Next(r: Rules, s: State, e: Event): State {
    if Can(r, s, e) then Do(r, s, e) else s
  }

  /** The state after the events, those that cannot happen skipped: every interleaving is one such sequence. */
  function Run(r: Rules, es: seq<Event>): State {
    if es == [] then INIT else Next(r, Run(r, es[..|es| - 1]), es[|es| - 1])
  }

  lemma {:induction false} RunSnoc(r: Rules, es: seq<Event>, e: Event)
    ensures Run(r, es + [e]) == Next(r, Run(r, es), e)
  {
    assert (es + [e])[..|es|] == es;
  }

  /** The ticks recorded for bind `o`, in log order. */
  function TicksOf(log: seq<Record>, o: nat): seq<nat> {
    if log == [] then []
    else TicksOf(log[..|log| - 1], o) + if log[|log| - 1].bind == o then [log[|log| - 1].tick] else []
  }

  /** 1, 2, …, n. */
  function FromOne(n: nat): (r: seq<nat>)
    ensures |r| == n && forall i :: 0 <= i < n ==> r[i] == i + 1
  {
    if n == 0 then [] else FromOne(n - 1) + [n]
  }

  /** How many submits of the session are in the log. */
  function InLog(x: Sess): int {
    x.clock - if x.stage.Counted? then 1 else 0
  }

  predicate SessionInv(s: State, x: Sess) {
    && 1 <= x.ordinal <= s.bindSeq && 0 <= InLog(x)
    && TicksOf(s.log, x.ordinal) == FromOne(InLog(x))
    && (x.ordinal in s.registry <==> x.registered && x.open)
    && (!x.stage.Idle? ==> x.registered && x.clock >= 1)
    && forall i :: 0 <= i < |s.log| && s.log[i].bind == x.ordinal ==> s.log[i].tick <= InLog(x)
  }

  ghost predicate RecordInv(s: State, r: Record) {
    r.id == R.MessageId(r.bind, r.tick) && r.bind <= s.bindSeq
  }

  ghost predicate Inv(s: State) {
    && (forall c :: c in s.sessions ==> SessionInv(s, s.sessions[c]))
    && (forall c, d :: c in s.sessions && d in s.sessions && s.sessions[c].ordinal == s.sessions[d].ordinal ==> c == d)
    && (forall i :: 0 <= i < |s.log| ==> RecordInv(s, s.log[i]))
    && (forall i, j :: 0 <= i < j < |s.log| ==> (s.log[i].bind, s.log[i].tick) != (s.log[j].bind, s.log[j].tick))
    && (forall o :: o in s.registry ==> exists c :: c in s.sessions && s.sessions[c].ordinal == o)
  }

  function Pending(s: State): set<nat> {
    set c | c in s.sessions && s.sessions[c].stage.Counted?
  }

  /** Every entry in front of `c` is reached at tick `n`, and none behind it was reached before. */
  predicate Midway(ds: seq<Entry<Cut>>, c: nat, n: nat) {
    && c <= |ds| && (forall i :: 0 <= i < c ==> ds[i].at <= n)
    && (forall i :: c <= i < |ds| ==> FirstTick(ds[i]) >= n)
  }

  /** Where a session stands among the entries: all those of past ticks settled, those of this tick asked about or consumed in turn. */
  predicate CursorInv(r: Rules, x: Sess) {
    var ds := SortedByTick(r.entries);
    match x.stage
    case Idle => CursorBehind(ds, x.cursor, x.clock)
    case Counted => x.clock >= 1 && CursorBehind(ds, x.cursor, x.clock - 1)
    case Recorded(i) =>
      && x.clock >= 1 && CursorBehind(ds, x.cursor, x.clock - 1)
      && x.cursor <= i <= |ds| && forall j :: x.cursor <= j < i ==> ds[j].at <= x.clock
    case Answered(_) => x.clock >= 1 && Midway(ds, x.cursor, x.clock)
    case Severed => true
  }

  predicate CursorsInv(r: Rules, s: State) {
    forall c :: c in s.sessions ==> CursorInv(r, s.sessions[c])
  }

  lemma {:induction false} NoTicks(log: seq<Record>, o: nat)
    requires forall i :: 0 <= i < |log| ==> log[i].bind != o
    ensures TicksOf(log, o) == []
  {
    if log != [] {
      NoTicks(log[..|log| - 1], o);
    }
  }

  lemma {:induction false} BoundSession(r: Rules, s: State, c: nat, d: nat)
    requires Inv(s) && Can(r, s, Bind(c)) && (d == c || d in s.sessions)
    ensures var t := Do(r, s, Bind(c)); SessionInv(t, t.sessions[d])
  {
    if d == c {
      NoTicks(s.log, s.bindSeq + 1);
    } else {
      assert SessionInv(s, s.sessions[d]);
    }
  }

  lemma {:induction false} BindInv(r: Rules, s: State, c: nat)
    requires Inv(s) && Can(r, s, Bind(c))
    ensures Inv(Do(r, s, Bind(c)))
  {
    var t := Do(r, s, Bind(c));
    forall d | d in t.sessions ensures SessionInv(t, t.sessions[d]) {
      BoundSession(r, s, c, d);
    }
    forall i | 0 <= i < |t.log| ensures RecordInv(t, t.log[i]) {
      assert RecordInv(s, s.log[i]);
    }
    forall d, e | d in t.sessions && e in t.sessions && t.sessions[d].ordinal == t.sessions[e].ordinal ensures d == e {
      assert d != c ==> SessionInv(s, s.sessions[d]);
      assert e != c ==> SessionInv(s, s.sessions[e]);
    }
    forall o | o in t.registry ensures exists d :: d in t.sessions && t.sessions[d].ordinal == o {
      var d :| d in s.sessions && s.sessions[d].ordinal == o;
      assert d in t.sessions;
    }
  }

  /** `t` differs from `s` in session `c` only, not in its ordinal or what of it is logged. */
  predicate Moves(s: State, t: State, c: nat) {
    && c in s.sessions && c in t.sessions && t.sessions == s.sessions[c := t.sessions[c]]
    && t.log == s.log && t.bindSeq == s.bindSeq
    && var x, y := s.sessions[c], t.sessions[c];
       && y.ordinal == x.ordinal && InLog(y) == InLog(x) && (!y.stage.Idle? ==> y.registered && y.clock >= 1)
       && (y.ordinal in t.registry <==> y.registered && y.open)
       && t.registry - {y.ordinal} == s.registry - {y.ordinal}
  }

  lemma {:induction false} MovedSession(s: State, t: State, c: nat, d: nat)
    requires Inv(s) && Moves(s, t, c) && d in s.sessions
    ensures SessionInv(t, t.sessions[d])
  {
    assert SessionInv(s, s.sessions[d]) && SessionInv(s, s.sessions[c]);
    if d != c {
      var o := s.sessions[d].ordinal;
      assert o in t.registry <==> o in t.registry - {t.sessions[c].ordinal};
      assert o in s.registry <==> o in s.registry - {t.sessions[c].ordinal};
    }
  }

  lemma {:induction false} MovedInv(s: State, t: State, c: nat)
    requires Inv(s) && Moves(s, t, c)
    ensures Inv(t)
  {
    forall d | d in t.sessions ensures SessionInv(t, t.sessions[d]) {
      MovedSession(s, t, c, d);
    }
    forall i | 0 <= i < |t.log| ensures RecordInv(t, t.log[i]) {
      assert RecordInv(s, s.log[i]);
    }
    forall o | o in t.registry ensures exists d :: d in t.sessions && t.sessions[d].ordinal == o {
      if o != t.sessions[c].ordinal {
        assert o in s.registry - {t.sessions[c].ordinal};
        var d :| d in s.sessions && s.sessions[d].ordinal == o;
        assert d in t.sessions && t.sessions[d].ordinal == o;
      }
    }
  }

  lemma {:induction false} AppendOther(r: Rules, s: State, c: nat, x: Sess)
    requires Can(r, s, Append(c)) && SessionInv(s, x) && x.ordinal != s.sessions[c].ordinal
    ensures SessionInv(Do(r, s, Append(c)), x)
  {
    assert Do(r, s, Append(c)).log[..|s.log|] == s.log;
  }

  lemma {:induction false} AppendOwn(r: Rules, s: State, c: nat)
    requires Can(r, s, Append(c)) && SessionInv(s, s.sessions[c])
    ensures var t := Do(r, s, Append(c)); SessionInv(t, t.sessions[c])
  {
    var x, log := s.sessions[c], Do(r, s, Append(c)).log;
    assert log[..|s.log|] == s.log && log[|s.log|].bind == x.ordinal && log[|s.log|].tick == x.clock;
    assert TicksOf(log, x.ordinal) == FromOne(x.clock - 1) + [x.clock];
  }

  lemma {:induction false} AppendSessions(r: Rules, s: State, c: nat, d: nat)
    requires Inv(s) && Can(r, s, Append(c)) && d in s.sessions
    ensures var t := Do(r, s, Append(c)); SessionInv(t, t.sessions[d])
  {
    assert SessionInv(s, s.sessions[d]);
    if d == c {
      AppendOwn(r, s, c);
    } else {
      AppendOther(r, s, c, s.sessions[d]);
    }
  }

  lemma {:induction false} AppendRecords(r: Rules, s: State, c: nat)
    requires Inv(s) && Can(r, s, Append(c))
    ensures
      var t := Do(r, s, Append(c));
      && (forall i :: 0 <= i < |t.log| ==> RecordInv(t, t.log[i]))
      && (forall i, j :: 0 <= i < j < |t.log| ==> (t.log[i].bind, t.log[i].tick) != (t.log[j].bind, t.log[j].tick))
  {
    var t := Do(r, s, Append(c));
    assert SessionInv(s, s.sessions[c]);
    forall i | 0 <= i < |t.log| ensures RecordInv(t, t.log[i]) {
      if i < |s.log| {
        assert RecordInv(s, s.log[i]);
      }
    }
  }

  lemma {:induction false} AppendInv(r: Rules, s: State, c: nat)
    requires Inv(s) && Can(r, s, Append(c))
    ensures Inv(Do(r, s, Append(c)))
  {
    var t := Do(r, s, Append(c));
    AppendRecords(r, s, c);
    forall d | d in t.sessions ensures SessionInv(t, t.sessions[d]) {
      AppendSessions(r, s, c, d);
    }
    forall o | o in t.registry ensures exists d :: d in t.sessions && t.sessions[d].ordinal == o {
      var d :| d in s.sessions && s.sessions[d].ordinal == o;
      assert d in t.sessions && t.sessions[d].ordinal == o;
    }
  }

  lemma {:induction false} StepInv(r: Rules, s: State, e: Event)
    requires Inv(s) && Can(r, s, e)
    ensures Inv(Do(r, s, e))
  {
    match e
    case Bind(c) => BindInv(r, s, c);
    case Append(c) => AppendInv(r, s, c);
    case _ =>
      assert SessionInv(s, s.sessions[e.conn]);
      MovedInv(s, Do(r, s, e), e.conn);
  }

  /** Entries asked about, or consumed, at a tick are those first reached at it. */
  lemma {:induction false} ReachedInTurn(ds: seq<Entry<Cut>>, c: nat, n: nat)
    requires ByTick(ds) && n >= 1 && CursorBehind(ds, c, n - 1)
    ensures Midway(ds, c, n)
  {
  }

  lemma {:induction false} DueNow(ds: seq<Entry<Cut>>, c: nat, n: nat)
    requires ByTick(ds) && n >= 1 && Midway(ds, c, n) && c < |ds| && ds[c].at <= n
    ensures FirstTick(ds[c]) == n && Midway(ds, c + 1, n)
  {
  }

  lemma {:induction false} AllReached(ds: seq<Entry<Cut>>, c: nat, n: nat)
    requires ByTick(ds) && n >= 1 && Midway(ds, c, n) && (c < |ds| ==> ds[c].at > n)
    ensures CursorBehind(ds, c, n)
  {
    forall i | c <= i < |ds| ensures ds[i].at > n {
      assert ds[c].at <= ds[i].at;
    }
  }

  lemma {:induction false} AskMoves(r: Rules, s: State, c: nat)
    requires Can(r, s, Ask(c)) && CursorInv(r, s.sessions[c])
    ensures CursorInv(r, Asking(r, s, s.sessions[c]))
  {
  }

  lemma {:induction false} AnswerMoves(r: Rules, x: Sess)
    requires x.stage.Recorded? && CursorInv(r, x)
    ensures CursorInv(r, x.(stage := Answered(false)))
  {
    SortKeeps(r.entries);
    ReachedInTurn(SortedByTick(r.entries), x.cursor, x.clock);
  }

  lemma {:induction false} ConsumeMoves(r: Rules, s: State, x: Sess)
    requires x.stage.Answered? && DueAt(r, x, x.cursor) && CursorInv(r, x)
    ensures CursorInv(r, Consuming(r, s, x))
  {
    SortKeeps(r.entries);
    DueNow(SortedByTick(r.entries), x.cursor, x.clock);
  }

  lemma {:induction false} SettleMoves(r: Rules, x: Sess)
    requires x.stage.Answered? && !DueAt(r, x, x.cursor) && CursorInv(r, x)
    ensures CursorInv(r, x.(stage := Idle))
  {
    SortKeeps(r.entries);
    AllReached(SortedByTick(r.entries), x.cursor, x.clock);
  }

  lemma {:induction false} CursorMoved(r: Rules, s: State, e: Event)
    requires Can(r, s, e) && !e.Bind? && CursorInv(r, s.sessions[e.conn])
    ensures CursorInv(r, Do(r, s, e).sessions[e.conn])
  {
    match e
    case Ask(c) => AskMoves(r, s, c);
    case Answer(c) => AnswerMoves(r, s.sessions[c]);
    case Consume(c) => ConsumeMoves(r, s, s.sessions[c]);
    case Settle(c) => SettleMoves(r, s.sessions[c]);
    case _ =>
  }

  lemma {:induction false} StepCursors(r: Rules, s: State, e: Event)
    requires CursorsInv(r, s) && Can(r, s, e)
    ensures CursorsInv(r, Do(r, s, e))
  {
    var t := Do(r, s, e);
    forall d | d in t.sessions ensures CursorInv(r, t.sessions[d]) {
      if d != e.conn {
        assert CursorInv(r, s.sessions[d]);
      } else if !e.Bind? {
        CursorMoved(r, s, e);
      }
    }
  }

  lemma {:induction false} CountPends(s: State, t: State, c: nat)
    requires c in s.sessions && c in t.sessions && t.sessions == s.sessions[c := t.sessions[c]]
    requires !s.sessions[c].stage.Counted? && t.sessions[c].stage.Counted?
    ensures |Pending(t)| == |Pending(s)| + 1
  {
    assert Pending(t) == Pending(s) + {c};
  }

  lemma {:induction false} AppendUnpends(s: State, t: State, c: nat)
    requires c in s.sessions && c in t.sessions && t.sessions == s.sessions[c := t.sessions[c]]
    requires s.sessions[c].stage.Counted? && !t.sessions[c].stage.Counted?
    ensures |Pending(t)| == |Pending(s)| - 1
  {
    assert Pending(t) == Pending(s) - {c} && c in Pending(s);
  }

  lemma {:induction false} OthersPend(s: State, t: State, c: nat)
    requires c in t.sessions && t.sessions == s.sessions[c := t.sessions[c]]
    requires t.sessions[c].stage.Counted? <==> c in s.sessions && s.sessions[c].stage.Counted?
    ensures Pending(t) == Pending(s)
  {
  }

  lemma {:induction false} StepCounts(r: Rules, s: State, e: Event)
    requires Can(r, s, e) && s.logicalClock == |s.log| + |Pending(s)|
    ensures var t := Do(r, s, e); t.logicalClock == |t.log| + |Pending(t)|
  {
    var t := Do(r, s, e);
    match e
    case Count(c) => CountPends(s, t, c);
    case Append(c) => AppendUnpends(s, t, c);
    case _ => OthersPend(s, t, e.conn);
  }

  lemma {:induction false} RunInv(r: Rules, es: seq<Event>)
    ensures Inv(Run(r, es)) && CursorsInv(r, Run(r, es))
    ensures Run(r, es).logicalClock == |Run(r, es).log| + |Pending(Run(r, es))|
  {
    if es == [] {
      assert Pending(INIT) == {};
    } else {
      var s, e := Run(r, es[..|es| - 1]), es[|es| - 1];
      RunInv(r, es[..|es| - 1]);
      if Can(r, s, e) {
        StepInv(r, s, e);
        StepCursors(r, s, e);
        StepCounts(r, s, e);
      }
    }
  }

  /** In every interleaving all message ids recorded are pairwise distinct. */
  lemma {:induction false} MessageIdsDistinct(r: Rules, es: seq<Event>, i: nat, j: nat)
    requires i < j < |Run(r, es).log|
    ensures Run(r, es).log[i].id != Run(r, es).log[j].id
  {
    RunInv(r, es);
    var a, b := Run(r, es).log[i], Run(r, es).log[j];
    assert RecordInv(Run(r, es), a) && RecordInv(Run(r, es), b);
    if a.id == b.id {
      R.MessageIdInjective(a.bind, a.tick, b.bind, b.tick);
    }
  }

  /**
    In every interleaving the log restricted to one bind, open or closed, has the clocks 1, 2, 3, … without
    gaps, up to the bind's own clock unless its last submit is not recorded yet.
  */
  lemma {:induction false} BindClocksGapless(r: Rules, es: seq<Event>, c: nat)
    requires c in Run(r, es).sessions
    ensures
      var x := Run(r, es).sessions[c];
      InLog(x) >= 0 && TicksOf(Run(r, es).log, x.ordinal) == FromOne(InLog(x))
  {
    RunInv(r, es);
    assert SessionInv(Run(r, es), Run(r, es).sessions[c]);
  }

  /** In every interleaving the logical clock is the records appended plus the submits between the two updates. */
  lemma {:induction false} LogicalClockCounts(r: Rules, es: seq<Event>)
    ensures Run(r, es).logicalClock == |Run(r, es).log| + |Pending(Run(r, es))|
  {
    RunInv(r, es);
  }

  // ----- scheduled disconnects across binds -----

  /** Every bind of a smaller ordinal has left the registry, or has not entered it yet. */
  predicate SmallerGone(s: State, o: nat) {
    forall d :: d in s.sessions && s.sessions[d].ordinal < o ==> !(s.sessions[d].registered && s.sessions[d].open)
  }

  /** What the registry answers a bound session. */
  lemma {:induction false} RegistryAnswers(s: State, c: nat)
    requires Inv(s) && c in s.sessions && s.sessions[c].registered && s.sessions[c].open
    ensures Oldest(s.registry, s.sessions[c].ordinal) <==> SmallerGone(s, s.sessions[c].ordinal)
  {
    var o := s.sessions[c].ordinal;
    assert SessionInv(s, s.sessions[c]);
    forall d | d in s.sessions && s.sessions[d].ordinal < o
      ensures s.sessions[d].ordinal in s.registry <==> s.sessions[d].registered && s.sessions[d].open {
      assert SessionInv(s, s.sessions[d]);
    }
    if SmallerGone(s, o) {
      forall p | p in s.registry ensures o <= p {
        var d :| d in s.sessions && s.sessions[d].ordinal == p;
        assert SessionInv(s, s.sessions[d]);
      }
    }
  }

  /**
    Entry `i` cuts bind `o` now: of scope all, by the bind's coin, or of scope oldest while every bind of a
    smaller ordinal is out of the registry.
  */
  predicate Cutting(r: Rules, s: State, o: nat, i: nat)
    requires i < |SortedByTick(r.entries)|
  {
    var d := SortedByTick(r.entries)[i];
    match d.what.scope
    case ScopeAll => true
    case ScopeRandom => r.coin(o)(d.at)
    case ScopeOldest => SmallerGone(s, o)
  }

  lemma {:induction false} AimsIff(r: Rules, es: seq<Event>, c: nat, i: nat)
    requires Running(Run(r, es), c) && Run(r, es).sessions[c].registered && i < |SortedByTick(r.entries)|
    ensures var s := Run(r, es); Aims(r, s, s.sessions[c], i) <==> Cutting(r, s, s.sessions[c].ordinal, i)
  {
    RunInv(r, es);
    RegistryAnswers(Run(r, es), c);
  }

  /**
    In every interleaving the peek asks, one at a time, about the entries first reached at the submit's
    tick, and cuts the bind at an entry if and only if it is a before_response one that cuts it on the
    registry of that moment.
  */
  lemma {:induction false} AskCutsIff(r: Rules, es: seq<Event>, c: nat)
    requires Can(r, Run(r, es), Ask(c))
    ensures
      var s, ds := Run(r, es), SortedByTick(r.entries);
      var x := s.sessions[c];
      var i := x.stage.next;
      && FirstTick(ds[i]) == x.clock
      && (Do(r, s, Ask(c)).sessions[c].stage.Severed? <==> ds[i].what.when.BeforeResponse? && Cutting(r, s, x.ordinal, i))
  {
    var s, ds := Run(r, es), SortedByTick(r.entries);
    var x := s.sessions[c];
    RunInv(r, es);
    assert SessionInv(s, x) && CursorInv(r, x);
    SortKeeps(r.entries);
    ReachedInTurn(ds, x.cursor, x.clock);
    AimsIff(r, es, c, x.stage.next);
  }

  /** The response goes out only when every entry first reached at the tick has been asked about and none cut the bind. */
  lemma {:induction false} AnswerAskedAll(r: Rules, es: seq<Event>, c: nat, j: nat)
    requires Can(r, Run(r, es), Answer(c)) && j < |SortedByTick(r.entries)|
    ensures
      var x := Run(r, es).sessions[c];
      FirstTick(SortedByTick(r.entries)[j]) == x.clock <==> x.cursor <= j < x.stage.next
  {
    var s, ds := Run(r, es), SortedByTick(r.entries);
    var x := s.sessions[c];
    RunInv(r, es);
    assert SessionInv(s, x) && CursorInv(r, x);
    SortKeeps(r.entries);
    if x.stage.next <= j {
      assert ds[x.stage.next].at <= ds[j].at;
    }
  }

  /** Step `k` of the run consumed, for connection `c` at its tick `t`, an entry that cut the bind on the registry of that moment. */
  ghost predicate CutBy(r: Rules, es: seq<Event>, k: nat, c: nat, t: nat) {
    && k < |es| && es[k] == Consume(c) && Can(r, Run(r, es[..k]), es[k])
    && var s := Run(r, es[..k]);
       var x := s.sessions[c];
       x.clock == t && FirstTick(SortedByTick(r.entries)[x.cursor]) == t && Cutting(r, s, x.ordinal, x.cursor)
  }

  lemma {:induction false} CutByBefore(r: Rules, es: seq<Event>, e: Event, k: nat, c: nat, t: nat)
    requires k < |es|
    ensures CutBy(r, es + [e], k, c, t) <==> CutBy(r, es, k, c, t)
  {
    assert (es + [e])[..k] == es[..k];
  }

  /** What the last step consumed. */
  lemma {:induction false} ConsumedNow(r: Rules, es: seq<Event>, c: nat)
    requires Can(r, Run(r, es), Consume(c))
    ensures
      var s := Run(r, es);
      var x := s.sessions[c];
      && FirstTick(SortedByTick(r.entries)[x.cursor]) == x.clock
      && (Aims(r, s, x, x.cursor) <==> CutBy(r, es + [Consume(c)], |es|, c, x.clock))
  {
    var s, ds := Run(r, es), SortedByTick(r.entries);
    var x := s.sessions[c];
    RunInv(r, es);
    assert SessionInv(s, x) && CursorInv(r, x);
    SortKeeps(r.entries);
    DueNow(ds, x.cursor, x.clock);
    AimsIff(r, es, c, x.cursor);
    assert (es + [Consume(c)])[..|es|] == es;
  }

  ghost predicate SomeCut(r: Rules, es: seq<Event>, c: nat, t: nat) {
    exists k: nat :: CutBy(r, es, k, c, t)
  }

  /** What the consumptions so far say of where a session stands. */
  ghost predicate StandsSo(r: Rules, es: seq<Event>, c: nat, x: Sess) {
    && (forall t: nat :: SomeCut(r, es, c, t) ==> t <= x.clock)
    && (x.stage.Counted? || x.stage.Recorded? ==> !SomeCut(r, es, c, x.clock))
    && (x.stage.Answered? ==> (x.stage.hit <==> SomeCut(r, es, c, x.clock)))
  }

  ghost predicate HitsSo(r: Rules, es: seq<Event>, c: nat) {
    if c in Run(r, es).sessions then StandsSo(r, es, c, Run(r, es).sessions[c])
    else forall t: nat :: !SomeCut(r, es, c, t)
  }

  /** A step that consumes nothing for `c` adds no cut of `c`. */
  lemma {:induction false} NoNewCut(r: Rules, es: seq<Event>, e: Event, c: nat, t: nat)
    requires !(e == Consume(c) && Can(r, Run(r, es), e))
    ensures SomeCut(r, es + [e], c, t) <==> SomeCut(r, es, c, t)
  {
    assert (es + [e])[..|es|] == es;
    forall k: nat | k < |es| ensures CutBy(r, es + [e], k, c, t) <==> CutBy(r, es, k, c, t) {
      CutByBefore(r, es, e, k, c, t);
    }
    assert !CutBy(r, es + [e], |es|, c, t);
  }

  /** A consumption adds a cut at its tick exactly when the entry aims at the bind. */
  lemma {:induction false} NewCut(r: Rules, es: seq<Event>, c: nat, t: nat)
    requires Can(r, Run(r, es), Consume(c))
    ensures
      var s := Run(r, es);
      var x := s.sessions[c];
      SomeCut(r, es + [Consume(c)], c, t) <==> SomeCut(r, es, c, t) || (t == x.clock && Aims(r, s, x, x.cursor))
  {
    var e, x := Consume(c), Run(r, es).sessions[c];
    ConsumedNow(r, es, c);
    assert (es + [e])[..|es|] == es;
    forall k: nat | k < |es| ensures CutBy(r, es + [e], k, c, t) <==> CutBy(r, es, k, c, t) {
      CutByBefore(r, es, e, k, c, t);
    }
    assert CutBy(r, es + [e], |es|, c, t) ==> t == x.clock;
  }

  lemma {:induction false} HitsConsumed(r: Rules, es: seq<Event>, c: nat)
    requires HitsSo(r, es, c) && Can(r, Run(r, es), Consume(c))
    ensures HitsSo(r, es + [Consume(c)], c)
  {
    RunSnoc(r, es, Consume(c));
    forall t: nat ensures SomeCut(r, es + [Consume(c)], c, t) <==>
      SomeCut(r, es, c, t) || (t == Run(r, es).sessions[c].clock && Aims(r, Run(r, es), Run(r, es).sessions[c], Run(r, es).sessions[c].cursor)) {
      NewCut(r, es, c, t);
    }
  }

  /** The session's own steps other than a consumption. */
  lemma {:induction false} HitsMoved(r: Rules, es: seq<Event>, e: Event)
    requires HitsSo(r, es, e.conn) && Can(r, Run(r, es), e) && !e.Consume?
    requires forall t: nat :: SomeCut(r, es + [e], e.conn, t) <==> SomeCut(r, es, e.conn, t)
    ensures StandsSo(r, es + [e], e.conn, Do(r, Run(r, es), e).sessions[e.conn])
  {
  }

  lemma {:induction false} HitsStep(r: Rules, es: seq<Event>, e: Event, c: nat)
    requires HitsSo(r, es, c)
    ensures HitsSo(r, es + [e], c)
  {
    var s := Run(r, es);
    RunSnoc(r, es, e);
    if e == Consume(c) && Can(r, s, e) {
      HitsConsumed(r, es, c);
    } else {
      forall t: nat ensures SomeCut(r, es + [e], c, t) <==> SomeCut(r, es, c, t) {
        NoNewCut(r, es, e, c, t);
      }
      if Can(r, s, e) {
        if e.conn == c {
          HitsMoved(r, es, e);
        } else {
          assert c in Do(r, s, e).sessions <==> c in s.sessions;
          assert c in s.sessions ==> Do(r, s, e).sessions[c] == s.sessions[c];
        }
      }
    }
  }

  lemma {:induction false} HitsHold(r: Rules, es: seq<Event>, c: nat)
    ensures HitsSo(r, es, c)
  {
    if es == [] {
      assert forall t: nat :: !SomeCut(r, es, c, t);
    } else {
      var before := es[..|es| - 1];
      HitsHold(r, before, c);
      HitsStep(r, before, es[|es| - 1], c);
      assert es == before + [es[|es| - 1]];
    }
  }

  /**
    In every interleaving the consumption after the response cuts its bind if and only if some entry
    first reached at that tick cut it on the registry of the moment it was consumed; by then all
    entries reached have been consumed.
  */
  lemma {:induction false} ConsumeCutsIff(r: Rules, es: seq<Event>, c: nat)
    requires Can(r, Run(r, es), Settle(c))
    ensures
      var s := Run(r, es);
      var x := s.sessions[c];
      && CursorBehind(SortedByTick(r.entries), x.cursor, x.clock)
      && (Do(r, s, Settle(c)).sessions[c].stage.Severed? <==> exists k: nat :: CutBy(r, es, k, c, x.clock))
  {
    var s := Run(r, es);
    RunInv(r, es);
    assert CursorInv(r, s.sessions[c]);
    SortKeeps(r.entries);
    AllReached(SortedByTick(r.entries), s.sessions[c].cursor, s.sessions[c].clock);
    HitsHold(r, es, c);
  }

  /** A bind that is the oldest stays so until its own close, but for a bind of a smaller ordinal that registers late. */
  lemma {:induction false} OldestStays(r: Rules, s: State, e: Event, c: nat)
    requires Inv(s) && Can(r, s, e) && c in s.sessions && Oldest(s.registry, s.sessions[c].ordinal) && e != Close(c)
    ensures Oldest(Do(r, s, e).registry, s.sessions[c].ordinal) || (e.Register? && s.sessions[e.conn].ordinal < s.sessions[c].ordinal)
  {
    assert SessionInv(s, s.sessions[c]);
    if !e.Bind? {
      assert SessionInv(s, s.sessions[e.conn]);
    }
  }

  /** In any one state at most one connection is the oldest registered bind, and it is open; over a run many can be in turn. */
  lemma {:induction false} OldestNowIsOne(r: Rules, es: seq<Event>, c: nat, d: nat)
    requires c in Run(r, es).sessions && d in Run(r, es).sessions
    requires Oldest(Run(r, es).registry, Run(r, es).sessions[c].ordinal) && Oldest(Run(r, es).registry, Run(r, es).sessions[d].ordinal)
    ensures c == d && Run(r, es).sessions[c].registered && Run(r, es).sessions[c].open
  {
    RunInv(r, es);
    assert SessionInv(Run(r, es), Run(r, es).sessions[c]);
  }

  // ----- one entry of scope oldest cutting bind after bind -----

  const FIRST_SUBMIT := Rules([Entry(1, Cut(ScopeOldest, AfterResponse))], (o: nat) => (t: nat) => false)

  /** Connections 0 to n - 1 bind and register in turn. */
  function Joining(n: nat): seq<Event> {
    if n == 0 then [] else Joining(n - 1) + [Bind(n - 1), Register(n - 1)]
  }

  /** Each in turn submits once and is taken down. */
  function Falling(k: nat): seq<Event> {
    if k == 0 then [] else Falling(k - 1) + Turn(k - 1)
  }

  function Turn(c: nat): seq<Event> {
    [Count(c), Append(c), Ask(c), Answer(c), Consume(c), Settle(c), Close(c)]
  }

  /** `n` connections that bound in turn, the first `k` of them cut and gone. */
  function Line(n: nat, k: nat): (m: map<nat, Sess>)
    ensures forall c: nat :: c in m <==> c < n
    ensures forall c: nat :: c in m ==> m[c] == if c < k then Sess(c + 1, 1, Severed, true, false, 1) else Sess(c + 1, 0, Idle, true, true, 0)
  {
    if n == 0 then map[]
    else Line(n - 1, k)[n - 1 := if n - 1 < k then Sess(n, 1, Severed, true, false, 1) else Sess(n, 0, Idle, true, true, 0)]
  }

  /** k + 1, …, n. */
  function Above(k: nat, n: nat): (r: set<nat>)
    requires k <= n
    ensures forall o: nat :: o in r <==> k < o <= n
    ensures |r| == n - k
  {
    if k == n then {} else Above(k, n - 1) + {n}
  }

  function Fallen(n: nat, k: nat, log: seq<Record>): State
    requires k <= n
  {
    State(n, k, Line(n, k), Above(k, n), log, Upto(k))
  }

  lemma {:induction false} RunTwo(r: Rules, es: seq<Event>, a: Event, b: Event)
    ensures Run(r, es + [a, b]) == Next(r, Next(r, Run(r, es), a), b)
  {
    RunSnoc(r, es, a);
    RunSnoc(r, es + [a], b);
    assert es + [a, b] == es + [a] + [b];
  }

  lemma {:induction false} RunTurn(r: Rules, es: seq<Event>, c: nat)
    ensures
      var s := Next(r, Next(r, Next(r, Next(r, Run(r, es), Count(c)), Append(c)), Ask(c)), Answer(c));
      Run(r, es + Turn(c)) == Next(r, Next(r, Next(r, s, Consume(c)), Settle(c)), Close(c))
  {
    RunTwo(r, es, Count(c), Append(c));
    RunTwo(r, es + [Count(c), Append(c)], Ask(c), Answer(c));
    var four := es + [Count(c), Append(c)] + [Ask(c), Answer(c)];
    RunTwo(r, four, Consume(c), Settle(c));
    RunSnoc(r, four + [Consume(c), Settle(c)], Close(c));
    assert es + Turn(c) == four + [Consume(c), Settle(c)] + [Close(c)];
  }

  lemma {:induction false} JoinsTo(r: Rules, n: nat)
    requires n > 0
    ensures Next(r, Next(r, Fallen(n - 1, 0, []), Bind(n - 1)), Register(n - 1)) == Fallen(n, 0, [])
  {
    var c, s := n - 1, Fallen(n - 1, 0, []);
    var bound := Next(r, s, Bind(c));
    assert bound == s.(bindSeq := n, sessions := s.sessions[c := Sess(n, 0, Idle, false, true, 0)]);
    var registered := Next(r, bound, Register(c));
    assert registered.sessions == Fallen(n, 0, []).sessions;
    assert registered.registry == Fallen(n, 0, []).registry;
  }

  lemma {:induction false} Joined(r: Rules, n: nat)
    ensures Run(r, Joining(n)) == Fallen(n, 0, [])
  {
    if n == 0 {
      assert INIT == Fallen(0, 0, []);
    } else {
      Joined(r, n - 1);
      RunTwo(r, Joining(n - 1), Bind(n - 1), Register(n - 1));
      JoinsTo(r, n);
    }
  }

  /** In the middle of the turn of connection `k`, the oldest of those left. */
  function Turning(n: nat, k: nat, x: Sess, log: seq<Record>, cuts: seq<nat>): State
    requires k < n
  {
    State(n, k + 1, Line(n, k)[k := x], Above(k, n), log, cuts)
  }

  lemma {:induction false} LineOver(m: map<nat, Sess>, k: nat, x: Sess, y: Sess)
    ensures m[k := x][k := y] == m[k := y]
  {
  }

  lemma {:induction false} LineNext(n: nat, k: nat)
    requires k < n
    ensures Line(n, k)[k := Sess(k + 1, 1, Severed, true, false, 1)] == Line(n, k + 1)
  {
    var m, m' := Line(n, k)[k := Sess(k + 1, 1, Severed, true, false, 1)], Line(n, k + 1);
    assert forall c: nat :: c in m <==> c in m';
    assert forall c: nat :: c in m ==> m[c] == m'[c];
  }

  lemma {:induction false} AboveNext(n: nat, k: nat)
    requires k < n
    ensures Above(k, n) - {k + 1} == Above(k + 1, n)
  {
  }

  lemma {:induction false} TurnCounts(n: nat, k: nat, log: seq<Record>)
    requires k < n
    ensures Next(FIRST_SUBMIT, Fallen(n, k, log), Count(k)) == Turning(n, k, Sess(k + 1, 1, Counted, true, true, 0), log, Upto(k))
  {
  }

  function Submitted(k: nat, log: seq<Record>): seq<Record> {
    log + [Record(k + 1, 1, R.MessageId(k + 1, 1))]
  }

  lemma {:induction false} TurnAppends(n: nat, k: nat, log: seq<Record>)
    requires k < n
    ensures Next(FIRST_SUBMIT, Turning(n, k, Sess(k + 1, 1, Counted, true, true, 0), log, Upto(k)), Append(k))
            == Turning(n, k, Sess(k + 1, 1, Recorded(0), true, true, 0), Submitted(k, log), Upto(k))
  {
    var x, y := Sess(k + 1, 1, Counted, true, true, 0), Sess(k + 1, 1, Recorded(0), true, true, 0);
    LineOver(Line(n, k), k, x, y);
  }

  lemma {:induction false} OneEntry()
    ensures SortedByTick(FIRST_SUBMIT.entries) == [Entry(1, Cut(ScopeOldest, AfterResponse))]
  {
    assert FIRST_SUBMIT.entries[..0] == [];
  }

  /** Session `c` moves to `y` at a step of its own that leaves the registry alone. */
  lemma {:induction false} MovesTo(s: State, c: nat, e: Event, y: Sess)
    requires Running(s, c) && e.conn == c && Can(FIRST_SUBMIT, s, e)
    requires (e.Ask? && Asking(FIRST_SUBMIT, s, s.sessions[c]) == y) || (e.Answer? && y == s.sessions[c].(stage := Answered(false)))
             || (e.Consume? && Consuming(FIRST_SUBMIT, s, s.sessions[c]) == y)
             || (e.Settle? && s.sessions[c].stage.hit && y == s.sessions[c].(stage := Severed))
    ensures Next(FIRST_SUBMIT, s, e) == Became(s, c, y)
  {
  }

  /** The entry is an after_response one: the peek passes it, and the response goes out. */
  lemma {:induction false} TurnAsks(n: nat, k: nat, log: seq<Record>)
    requires k < n
    ensures Next(FIRST_SUBMIT, Turning(n, k, Sess(k + 1, 1, Recorded(0), true, true, 0), log, Upto(k)), Ask(k))
            == Turning(n, k, Sess(k + 1, 1, Recorded(1), true, true, 0), log, Upto(k))
  {
    var x, y := Sess(k + 1, 1, Recorded(0), true, true, 0), Sess(k + 1, 1, Recorded(1), true, true, 0);
    OneEntry();
    MovesTo(Turning(n, k, x, log, Upto(k)), k, Ask(k), y);
    LineOver(Line(n, k), k, x, y);
  }

  lemma {:induction false} TurnAnswers(n: nat, k: nat, log: seq<Record>)
    requires k < n
    ensures Next(FIRST_SUBMIT, Turning(n, k, Sess(k + 1, 1, Recorded(1), true, true, 0), log, Upto(k)), Answer(k))
            == Turning(n, k, Sess(k + 1, 1, Answered(false), true, true, 0), log, Upto(k))
  {
    var x, y := Sess(k + 1, 1, Recorded(1), true, true, 0), Sess(k + 1, 1, Answered(false), true, true, 0);
    OneEntry();
    MovesTo(Turning(n, k, x, log, Upto(k)), k, Answer(k), y);
    LineOver(Line(n, k), k, x, y);
  }

  /** It is the oldest now, so the entry cuts it. */
  lemma {:induction false} TurnConsumes(n: nat, k: nat, log: seq<Record>)
    requires k < n
    ensures Next(FIRST_SUBMIT, Turning(n, k, Sess(k + 1, 1, Answered(false), true, true, 0), log, Upto(k)), Consume(k))
            == Turning(n, k, Sess(k + 1, 1, Answered(true), true, true, 1), log, Upto(k))
  {
    var x, y := Sess(k + 1, 1, Answered(false), true, true, 0), Sess(k + 1, 1, Answered(true), true, true, 1);
    OneEntry();
    assert Oldest(Above(k, n), k + 1);
    MovesTo(Turning(n, k, x, log, Upto(k)), k, Consume(k), y);
    LineOver(Line(n, k), k, x, y);
  }

  lemma {:induction false} TurnSettles(n: nat, k: nat, log: seq<Record>)
    requires k < n
    ensures Next(FIRST_SUBMIT, Turning(n, k, Sess(k + 1, 1, Answered(true), true, true, 1), log, Upto(k)), Settle(k))
            == Turning(n, k, Sess(k + 1, 1, Severed, true, true, 1), log, Upto(k + 1))
  {
    var x, y := Sess(k + 1, 1, Answered(true), true, true, 1), Sess(k + 1, 1, Severed, true, true, 1);
    OneEntry();
    MovesTo(Turning(n, k, x, log, Upto(k)), k, Settle(k), y);
    LineOver(Line(n, k), k, x, y);
  }

  lemma {:induction false} ClosesTo(s: State, c: nat)
    requires Can(FIRST_SUBMIT, s, Close(c))
    ensures Next(FIRST_SUBMIT, s, Close(c))
            == s.(sessions := s.sessions[c := s.sessions[c].(open := false)], registry := s.registry - {s.sessions[c].ordinal})
  {
  }

  lemma {:induction false} TurnCloses(n: nat, k: nat, log: seq<Record>)
    requires k < n
    ensures Next(FIRST_SUBMIT, Turning(n, k, Sess(k + 1, 1, Severed, true, true, 1), log, Upto(k + 1)), Close(k)) == Fallen(n, k + 1, log)
  {
    var x, y := Sess(k + 1, 1, Severed, true, true, 1), Sess(k + 1, 1, Severed, true, false, 1);
    ClosesTo(Turning(n, k, x, log, Upto(k + 1)), k);
    LineOver(Line(n, k), k, x, y);
    LineNext(n, k);
    AboveNext(n, k);
  }

  /** The oldest of those left submits: it alone is told so, is cut, and leaves the next one the oldest. */
  lemma {:induction false} OneFalls(n: nat, k: nat, log: seq<Record>)
    requires k < n
    ensures
      var r := FIRST_SUBMIT;
      var s := Next(r, Next(r, Next(r, Next(r, Fallen(n, k, log), Count(k)), Append(k)), Ask(k)), Answer(k));
      Next(r, Next(r, Next(r, s, Consume(k)), Settle(k)), Close(k)) == Fallen(n, k + 1, Submitted(k, log))
  {
    TurnCounts(n, k, log);
    TurnAppends(n, k, log);
    TurnAsks(n, k, Submitted(k, log));
    TurnAnswers(n, k, Submitted(k, log));
    TurnConsumes(n, k, Submitted(k, log));
    TurnSettles(n, k, Submitted(k, log));
    TurnCloses(n, k, Submitted(k, log));
  }

  lemma {:induction false} OneTurn(n: nat, k: nat, log: seq<Record>, es: seq<Event>)
    requires k < n && Run(FIRST_SUBMIT, es) == Fallen(n, k, log)
    ensures Run(FIRST_SUBMIT, es + Turn(k)) == Fallen(n, k + 1, Submitted(k, log))
  {
    RunTurn(FIRST_SUBMIT, es, k);
    OneFalls(n, k, log);
  }

  /** All join, then the first `k` fall. */
  function JoinThenFall(n: nat, k: nat): seq<Event> {
    Joining(n) + Falling(k)
  }

  lemma {:induction false} FallingUnfolds(n: nat, k: nat)
    ensures JoinThenFall(n, k + 1) == JoinThenFall(n, k) + Turn(k)
    ensures JoinThenFall(n, 0) == Joining(n)
  {
  }

  function FallLog(k: nat): seq<Record> {
    if k == 0 then [] else Submitted(k - 1, FallLog(k - 1))
  }

  ghost predicate FallsTo(n: nat, k: nat)
    requires k <= n
  {
    Run(FIRST_SUBMIT, JoinThenFall(n, k)) == Fallen(n, k, FallLog(k))
  }

  lemma {:induction false} NoneFallen(n: nat)
    ensures FallsTo(n, 0)
  {
    Joined(FIRST_SUBMIT, n);
    FallingUnfolds(n, 0);
  }

  lemma {:induction false} NextFall(n: nat, k: nat)
    requires k < n && FallsTo(n, k)
    ensures FallsTo(n, k + 1)
  {
    OneTurn(n, k, FallLog(k), JoinThenFall(n, k));
    FallingUnfolds(n, k);
  }

  lemma {:induction false} AllFall(n: nat)
    ensures FallsTo(n, n)
  {
    NoneFallen(n);
    for k := 0 to n
      invariant FallsTo(n, k)
    {
      NextFall(n, k);
    }
  }

  /** One entry of scope oldest can cut every one of n binds registered together, one after the other. */
  lemma {:induction false} OldestCascades(n: nat)
    ensures |Run(FIRST_SUBMIT, Joining(n)).registry| == n && Run(FIRST_SUBMIT, Joining(n)).cuts == []
    ensures Run(FIRST_SUBMIT, JoinThenFall(n, n)).cuts == Upto(n) && Run(FIRST_SUBMIT, JoinThenFall(n, n)).registry == {}
  {
    Joined(FIRST_SUBMIT, n);
    AllFall(n);
  }
}
