/**
  A whole bind, from its submits to its decisions and its schedule, and what two runs of it share:
  same seed, same submits, same run, whatever the wall clock did.
*/
module Replay {
  import opened Wrappers
  import opened Schema
  import opened Cursors
  import opened Engines
  import opened ScenarioEngine
  import opened Prng
  import B = BindSchedule
  import opened Seeding
  import R = Receipt
  import Rng

  /** A submit: what it carries, and what about the moment it is handled is not part of it: the clock and the registry's two answers. */
  datatype Sub = Sub(content: bytes, now: int, registry: Asked)

  /** What reaches the read loop of a bound session: a submit, a keepalive, or silence long enough to flush. */
  datatype Input = Submit(sub: Sub) | Keepalive | Flush

  /** What is fixed once the bind succeeded. */
  datatype Env<!S> = Env(
    src: Source<S>, engines: map<Profile, Engine>, transitions: seq<Entry<Profile>>, disconnects: seq<Entry<Cut>>,
    coin: nat -> bool, ordinal: nat, canReceive: bool)

  /** One committed submit: its tick and message id, the profile it ran under, the verdict, and whether it was answered and planned a receipt. */
  datatype Record = Record(
    tick: nat, id: bytes, content: bytes, profile: Profile, verdict: Decision, answered: bool, planned: bool)

  datatype Live<S> = Live(
    bind: Bind<S>, clock: nat, profile: Profile, tcursor: nat, dcursor: nat, open: bool, log: seq<Record>)

  predicate ValidEnv<S>(v: Env<S>) {
    && (forall i :: 0 <= i < |v.transitions| ==> v.transitions[i].what in v.engines)
    && (forall q :: q in v.engines ==> Ready(v.engines[q]))
  }

  predicate ValidLive<S>(v: Env<S>, l: Live<S>) {
    && l.tcursor <= |v.transitions| && l.dcursor <= |v.disconnects|
    && l.profile in v.engines
    && |l.log| == l.clock
    && forall i :: 0 <= i < |l.log| ==> l.log[i].tick == i + 1
  }

  /** The cursor and the profile once the transitions due at `tick` were applied. */
  function Switched<S>(v: Env<S>, l: Live<S>, tick: nat): (nat, Profile)
    requires l.tcursor <= |v.transitions|
  {
    var c := Advance(v.transitions, l.tcursor, tick);
    (c, if c == l.tcursor then l.profile else v.transitions[c - 1].what)
  }

  /** The verdict's own answer: success and failure respond, a timeout does not, a cut responds first when it says so. */
  predicate Answers(d: Decision) {
    d.outcome.Success? || d.outcome.Failure? || (d.outcome.Disconnect? && d.cut == Some(AfterResponse))
  }

  function RecordOf<S>(v: Env<S>, tick: nat, x: Sub, p: Profile, d: Decision, withheld: bool): Record {
    Record(tick, R.MessageId(v.ordinal, tick), x.content, p, d, !withheld && Answers(d),
           !withheld && d.dlr.Some? && d.outcome.Success? && v.canReceive)
  }

  /** The submit committed under a profile and a verdict: the tick counted, the submit recorded, answered or withheld. */
  function CommitAs<S>(v: Env<S>, l: Live<S>, x: Sub, c: nat, p: Profile, d: Decision, b: Bind<S>): Live<S> {
    var tick := l.clock + 1;
    var withheld := Peek(v.disconnects, l.dcursor, tick, v.coin, x.registry.peek);
    Live(b, tick, p, c, l.dcursor, !withheld && !d.outcome.Disconnect?, l.log + [RecordOf(v, tick, x, p, d, withheld)])
  }

  /** The submit decided by the engine in force at its tick, and committed. */
  function Committed<S>(v: Env<S>, l: Live<S>, x: Sub): (r: Live<S>)
    requires ValidEnv(v) && ValidLive(v, l)
    ensures ValidLive(v, r)
  {
    var (c, p) := Switched(v, l, l.clock + 1);
    var (d, b) := Decide(v.engines[p], v.src, l.bind, l.clock + 1, x.now);
    CommitAs(v, l, x, c, p, d, b)
  }

  /** The due disconnects consumed after the response. */
  function Settled<S>(v: Env<S>, m: Live<S>, oldest: bool): (r: Live<S>)
    requires ValidLive(v, m)
    ensures ValidLive(v, r)
  {
    var c := Advance(v.disconnects, m.dcursor, m.clock);
    m.(dcursor := c, open := !Hit(v.disconnects, m.dcursor, c, v.coin, oldest))
  }

  /** One submit: committed, and if that left the link up, the schedule is drained and the due disconnects consumed. */
  function Submitted<S>(v: Env<S>, l: Live<S>, x: Sub): (r: Live<S>)
    requires ValidEnv(v) && ValidLive(v, l)
    ensures ValidLive(v, r)
  {
    if !l.open then l else
    var m := Committed(v, l, x);
    if m.open then Settled(v, m, x.registry.consume) else m
  }

  /** A bind's whole state: its decisions and its schedule. */
  datatype State<S> = State(live: Live<S>, sched: B.State)

  /** What the schedule sees of an input: a submit that kept the link up, or a flush. */
  function Trace<S>(v: Env<S>, l: Live<S>, i: Input): Option<B.Input>
    requires ValidEnv(v) && ValidLive(v, l)
  {
    match i
    case Submit(x) =>
      if l.open && Committed(v, l, x).open then Some(B.Submit(Committed(v, l, x).log[|l.log|].planned)) else None
    case Flush => if l.open then Some(B.Flush) else None
    case Keepalive => None
  }

  function Step<S>(v: Env<S>, delay: nat, s: State<S>, i: Input): (r: State<S>)
    requires ValidEnv(v) && ValidLive(v, s.live)
    ensures ValidLive(v, r.live)
  {
    var t := Trace(v, s.live, i);
    State(
      if i.Submit? then Submitted(v, s.live, i.sub) else s.live,
      if t.Some? then B.Step(s.sched, delay, t.value) else s.sched)
  }

  function Run<S>(v: Env<S>, delay: nat, mos: seq<nat>, start: Live<S>, inputs: seq<Input>): (r: State<S>)
    requires ValidEnv(v) && ValidLive(v, start)
    ensures ValidLive(v, r.live)
    decreases |inputs|
  {
    if inputs == [] then State(start, B.Start(mos))
    else Step(v, delay, Run(v, delay, mos, start, inputs[..|inputs| - 1]), inputs[|inputs| - 1])
  }

  // ----- the decisions depend on the submits alone -----

  function Subs(inputs: seq<Input>): seq<Sub> {
    if inputs == [] then []
    else Subs(inputs[..|inputs| - 1]) + if inputs[|inputs| - 1].Submit? then [inputs[|inputs| - 1].sub] else []
  }

  function LiveRun<S>(v: Env<S>, start: Live<S>, xs: seq<Sub>): (l: Live<S>)
    requires ValidEnv(v) && ValidLive(v, start)
    ensures ValidLive(v, l)
    decreases |xs|
  {
    if xs == [] then start else Submitted(v, LiveRun(v, start, xs[..|xs| - 1]), xs[|xs| - 1])
  }

  lemma {:induction false} DecisionsFollowSubmits<S>(v: Env<S>, delay: nat, mos: seq<nat>, start: Live<S>, inputs: seq<Input>)
    requires ValidEnv(v) && ValidLive(v, start)
    ensures Run(v, delay, mos, start, inputs).live == LiveRun(v, start, Subs(inputs))
    decreases |inputs|
  {
    if inputs != [] {
      var before, last := inputs[..|inputs| - 1], inputs[|inputs| - 1];
      DecisionsFollowSubmits(v, delay, mos, start, before);
      if last.Submit? {
        assert Subs(inputs)[..|Subs(inputs)| - 1] == Subs(before);
      } else {
        assert Subs(inputs) == Subs(before);
      }
    }
  }

  // ----- the cursors over a run -----

  /** The ordered copies of the configured entries. */
  predicate Configured<S>(v: Env<S>, ts: seq<Entry<Profile>>, ds: seq<Entry<Cut>>) {
    v.transitions == SortedByTick(ts) && v.disconnects == SortedByTick(ds)
  }

  /** A bind before its first submit. */
  predicate Unused<S>(l: Live<S>) {
    l.clock == l.tcursor == l.dcursor == 0 && l.open && l.log == []
  }

  /** The submit ran under the profile its tick puts in force, and carries the id of the bind and the tick. */
  predicate RanInForce(r: Record, ts: seq<Entry<Profile>>, initial: Profile, ordinal: nat) {
    r.profile == ProfileAt(ts, initial, r.tick).0 && r.id == R.MessageId(ordinal, r.tick)
  }

  predicate InForce<S>(l: Live<S>, ts: seq<Entry<Profile>>, initial: Profile, ordinal: nat) {
    && (l.profile, l.tcursor) == ProfileAt(ts, initial, l.clock)
    && forall i :: 0 <= i < |l.log| ==> RanInForce(l.log[i], ts, initial, ordinal)
  }

  lemma {:induction false} LogFollowsTransitions<S>(v: Env<S>, start: Live<S>, xs: seq<Sub>, ts: seq<Entry<Profile>>, ds: seq<Entry<Cut>>)
    requires ValidEnv(v) && ValidLive(v, start) && Configured(v, ts, ds) && Unused(start)
    ensures InForce(LiveRun(v, start, xs), ts, start.profile, v.ordinal)
    decreases |xs|
  {
    if xs != [] {
      var n := |xs| - 1;
      LogFollowsTransitions(v, start, xs[..n], ts, ds);
      InForceStep(v, LiveRun(v, start, xs[..n]), xs[n], ts, start.profile);
    }
  }

  lemma {:induction false} InForceStep<S>(v: Env<S>, l: Live<S>, x: Sub, ts: seq<Entry<Profile>>, initial: Profile)
    requires ValidEnv(v) && ValidLive(v, l) && v.transitions == SortedByTick(ts) && InForce(l, ts, initial, v.ordinal)
    ensures InForce(Submitted(v, l, x), ts, initial, v.ordinal)
  {
    if l.open {
      CommitInForce(v, l, x, ts, initial);
    }
  }

  lemma {:induction false} CommitInForce<S>(v: Env<S>, l: Live<S>, x: Sub, ts: seq<Entry<Profile>>, initial: Profile)
    requires ValidEnv(v) && ValidLive(v, l) && v.transitions == SortedByTick(ts) && InForce(l, ts, initial, v.ordinal)
    ensures InForce(Committed(v, l, x), ts, initial, v.ordinal)
  {
    var m := Committed(v, l, x);
    SwitchInForce(v, l, ts, initial);
    assert RanInForce(m.log[|l.log|], ts, initial, v.ordinal);
  }

  lemma {:induction false} SwitchInForce<S>(v: Env<S>, l: Live<S>, ts: seq<Entry<Profile>>, initial: Profile)
    requires v.transitions == SortedByTick(ts) && (l.profile, l.tcursor) == ProfileAt(ts, initial, l.clock)
    ensures var (c, p) := Switched(v, l, l.clock + 1); (p, c) == ProfileAt(ts, initial, l.clock + 1)
  {
  }

  /** How record `i` was answered, and what it planned. */
  predicate AnsweredByVerdict<S>(v: Env<S>, l: Live<S>, i: int)
    requires 0 <= i < |l.log|
  {
    var r := l.log[i];
    && (r.planned <==> r.answered && r.verdict.outcome.Success? && r.verdict.dlr.Some? && v.canReceive)
    && (r.verdict.outcome.Timeout? ==> !r.answered)
    && (!r.answered && !r.verdict.outcome.Timeout? ==> i == |l.log| - 1 && !l.open)
    && (r.verdict.outcome.Disconnect? ==> i == |l.log| - 1 && !l.open)
  }

  predicate AllByVerdict<S>(v: Env<S>, l: Live<S>) {
    forall i :: 0 <= i < |l.log| ==> AnsweredByVerdict(v, l, i)
  }

  /**
    Over a run every success and failure is answered and every timeout is not, unless the link goes
    down at that very submit, and a receipt is planned exactly for an answered success that drew one,
    on a bind able to receive it.
  */
  lemma {:induction false} AnswersFollowVerdicts<S>(v: Env<S>, start: Live<S>, xs: seq<Sub>)
    requires ValidEnv(v) && ValidLive(v, start) && Unused(start)
    ensures AllByVerdict(v, LiveRun(v, start, xs))
    decreases |xs|
  {
    if xs != [] {
      var n := |xs| - 1;
      AnswersFollowVerdicts(v, start, xs[..n]);
      if LiveRun(v, start, xs[..n]).open {
        CommitAnswers(v, LiveRun(v, start, xs[..n]), xs[n]);
        SettleAnswers(v, Committed(v, LiveRun(v, start, xs[..n]), xs[n]), xs[n].registry.consume);
      }
    }
  }

  lemma {:induction false} CommitAnswers<S>(v: Env<S>, l: Live<S>, x: Sub)
    requires ValidEnv(v) && ValidLive(v, l) && AllByVerdict(v, l) && l.open
    ensures AllByVerdict(v, Committed(v, l, x))
  {
    var m := Committed(v, l, x);
    var p := Switched(v, l, l.clock + 1).1;
    CutsSayWhen(v.engines[p], v.src, l.bind, l.clock + 1, x.now);
    forall i | 0 <= i < |m.log| ensures AnsweredByVerdict(v, m, i) {
      if i < |l.log| {
        assert AnsweredByVerdict(v, l, i) && m.log[i] == l.log[i];
      }
    }
  }

  lemma {:induction false} SettleAnswers<S>(v: Env<S>, m: Live<S>, oldest: bool)
    requires ValidLive(v, m) && AllByVerdict(v, m)
    ensures m.open ==> AllByVerdict(v, Settled(v, m, oldest))
  {
    if m.open {
      var r := Settled(v, m, oldest);
      forall i | 0 <= i < |r.log| ensures AnsweredByVerdict(v, r, i) {
        assert AnsweredByVerdict(v, m, i);
      }
    }
  }

  /** The one disconnect a carrier makes comes after its response. */
  lemma {:induction false} CutsSayWhen<S>(e: Engine, src: Source<S>, b: Bind<S>, t: nat, now: int)
    requires Ready(e)
    ensures var d := Decide(e, src, b, t, now).0; d.outcome.Disconnect? <==> d.cut == Some(AfterResponse)
  {
  }

  /** The registry's answers, one pair per submit. */
  function AskedOf(xs: seq<Sub>): (r: seq<Asked>)
    ensures |r| == |xs| && forall i :: 0 <= i < |xs| ==> r[i] == xs[i].registry
  {
    seq(|xs|, i requires 0 <= i < |xs| => xs[i].registry)
  }

  /** What the disconnect schedule and the log say of a bind agree: open on both, or cut at the last tick, by the schedule or by the carrier. */
  predicate CutAgrees<S>(l: Live<S>, life: Life) {
    if l.open then life == Open(l.dcursor)
    else
      && l.log != []
      && (life.CutAt? ==> life.tick == l.clock && (life.withheld ==> !l.log[|l.log| - 1].answered && !l.log[|l.log| - 1].planned))
      && (life.Open? ==> l.log[|l.log| - 1].verdict.outcome.Disconnect?)
  }

  /** `l` is where submits `xs` led, as far as the schedule `ds` and the registry's answers over them say. */
  predicate CutAsScheduled<S>(v: Env<S>, l: Live<S>, ds: seq<Entry<Cut>>, xs: seq<Sub>) {
    && l.clock <= |xs| && (l.open ==> l.clock == |xs|)
    && CutAgrees(l, LifeAfter(ds, AskedOf(xs)[..l.clock], v.coin))
  }

  lemma {:induction false} CutAtStart<S>(v: Env<S>, l: Live<S>, ds: seq<Entry<Cut>>)
    requires ValidEnv(v) && ValidLive(v, l) && Unused(l)
    ensures CutAsScheduled(v, l, ds, [])
  {
    assert LifeAfter(ds, [], v.coin) == Open(0);
  }

  lemma {:induction false} CutNext<S>(v: Env<S>, l: Live<S>, ds: seq<Entry<Cut>>, xs: seq<Sub>)
    requires ValidEnv(v) && ValidLive(v, l) && v.disconnects == SortedByTick(ds)
    requires xs != [] && CutAsScheduled(v, l, ds, xs[..|xs| - 1])
    ensures CutAsScheduled(v, Submitted(v, l, xs[|xs| - 1]), ds, xs)
  {
    var asked := AskedOf(xs);
    assert asked[..l.clock] == AskedOf(xs[..|xs| - 1])[..l.clock];
    if l.open {
      CutStep(v, l, xs[|xs| - 1], ds, asked);
    }
  }

  /** The link goes down exactly when the schedule, run over the same ticks and answers, cuts the bind or the carrier drops it. */
  lemma {:induction false} CutsFollowSchedule<S>(v: Env<S>, start: Live<S>, xs: seq<Sub>, ts: seq<Entry<Profile>>, ds: seq<Entry<Cut>>)
    requires ValidEnv(v) && ValidLive(v, start) && Configured(v, ts, ds) && Unused(start)
    ensures CutAsScheduled(v, LiveRun(v, start, xs), ds, xs)
    decreases |xs|
  {
    if xs == [] {
      CutAtStart(v, start, ds);
    } else {
      var before := xs[..|xs| - 1];
      CutsFollowSchedule(v, start, before, ts, ds);
      CutNext(v, LiveRun(v, start, before), ds, xs);
    }
  }

  lemma {:induction false} CutStep<S>(v: Env<S>, l: Live<S>, x: Sub, ds: seq<Entry<Cut>>, asked: seq<Asked>)
    requires ValidEnv(v) && ValidLive(v, l) && l.open && v.disconnects == SortedByTick(ds)
    requires |asked| == l.clock + 1 && asked[l.clock] == x.registry
    requires LifeAfter(ds, asked[..l.clock], v.coin) == Open(l.dcursor)
    ensures Submitted(v, l, x).clock == |asked| && CutAgrees(Submitted(v, l, x), LifeAfter(ds, asked, v.coin))
    ensures asked[..|asked|] == asked
  {
    assert LifeAfter(ds, asked, v.coin) == TickLife(v.disconnects, Open(l.dcursor), l.clock + 1, v.coin, x.registry);
  }

  /** The schedule withheld the response of the submit at `tick`. */
  predicate WithheldAt(life: Life, tick: nat) {
    life.CutAt? && life.tick == tick && life.withheld
  }

  /** Every record is answered unless its verdict is a timeout or the disconnect schedule withheld it. */
  predicate AnsweredUnlessWithheld<S>(l: Live<S>, life: Life) {
    forall i :: 0 <= i < |l.log| ==>
      (l.log[i].answered <==> !l.log[i].verdict.outcome.Timeout? && !WithheldAt(life, i + 1))
  }

  lemma {:induction false} AnsweredNext<S>(v: Env<S>, l: Live<S>, x: Sub)
    requires ValidEnv(v) && ValidLive(v, l) && l.open && AnsweredUnlessWithheld(l, Open(l.dcursor))
    ensures AnsweredUnlessWithheld(Submitted(v, l, x), TickLife(v.disconnects, Open(l.dcursor), l.clock + 1, v.coin, x.registry))
  {
    var r, life := Submitted(v, l, x), TickLife(v.disconnects, Open(l.dcursor), l.clock + 1, v.coin, x.registry);
    var p := Switched(v, l, l.clock + 1).1;
    CutsSayWhen(v.engines[p], v.src, l.bind, l.clock + 1, x.now);
    forall i | 0 <= i < |r.log|
      ensures r.log[i].answered <==> !r.log[i].verdict.outcome.Timeout? && !WithheldAt(life, i + 1) {
      if i < |l.log| {
        assert r.log[i] == l.log[i] && !WithheldAt(Open(l.dcursor), i + 1);
      }
    }
  }

  /** The schedule's own view of the next submit. */
  lemma {:induction false} LifeOneMore<S>(v: Env<S>, l: Live<S>, x: Sub, ds: seq<Entry<Cut>>, asked: seq<Asked>)
    requires ValidEnv(v) && ValidLive(v, l) && l.open && v.disconnects == SortedByTick(ds)
    requires |asked| == l.clock + 1 && asked[l.clock] == x.registry
    requires LifeAfter(ds, asked[..l.clock], v.coin) == Open(l.dcursor)
    ensures Submitted(v, l, x).clock == |asked| && asked[..|asked|] == asked
    ensures LifeAfter(ds, asked, v.coin) == TickLife(v.disconnects, Open(l.dcursor), l.clock + 1, v.coin, x.registry)
  {
  }

  /**
    Over a run a submit is answered exactly when its verdict is not a timeout and no entry of the
    disconnect schedule withheld its response: what a carrier cuts, and what an after_response entry
    cuts, is answered first.
  */
  lemma {:induction false} AnsweredIff<S>(v: Env<S>, start: Live<S>, xs: seq<Sub>, ts: seq<Entry<Profile>>, ds: seq<Entry<Cut>>)
    requires ValidEnv(v) && ValidLive(v, start) && Configured(v, ts, ds) && Unused(start)
    ensures
      var l := LiveRun(v, start, xs);
      && l.clock <= |xs|
      && AnsweredUnlessWithheld(l, LifeAfter(ds, AskedOf(xs)[..l.clock], v.coin))
    decreases |xs|
  {
    if xs == [] {
      CutAtStart(v, start, ds);
    } else {
      var before := xs[..|xs| - 1];
      AnsweredIff(v, start, before, ts, ds);
      CutsFollowSchedule(v, start, before, ts, ds);
      AnsweredSoFar(v, LiveRun(v, start, before), ds, xs);
    }
  }

  lemma {:induction false} AnsweredSoFar<S>(v: Env<S>, l: Live<S>, ds: seq<Entry<Cut>>, xs: seq<Sub>)
    requires ValidEnv(v) && ValidLive(v, l) && v.disconnects == SortedByTick(ds)
    requires xs != [] && CutAsScheduled(v, l, ds, xs[..|xs| - 1])
    requires AnsweredUnlessWithheld(l, LifeAfter(ds, AskedOf(xs[..|xs| - 1])[..l.clock], v.coin))
    ensures
      var r := Submitted(v, l, xs[|xs| - 1]);
      r.clock <= |xs| && AnsweredUnlessWithheld(r, LifeAfter(ds, AskedOf(xs)[..r.clock], v.coin))
  {
    assert AskedOf(xs)[..l.clock] == AskedOf(xs[..|xs| - 1])[..l.clock];
    if l.open {
      AnsweredNext(v, l, xs[|xs| - 1]);
      LifeOneMore(v, l, xs[|xs| - 1], ds, AskedOf(xs));
    }
  }

  // ----- two runs -----

  /** The same engines up to the malformed-response injection. */
  predicate SameButEdges(m: map<Profile, Engine>, m': map<Profile, Engine>) {
    m.Keys == m'.Keys && forall q :: q in m ==> m'[q].(edge := None) == m[q].(edge := None)
  }

  ghost predicate Alike<S>(v: Env<S>, v': Env<S>) {
    v'.(engines := v.engines) == v && SameButEdges(v.engines, v'.engines)
  }

  predicate NoOldest(ds: seq<Entry<Cut>>) {
    forall i :: 0 <= i < |ds| ==> !ds[i].what.scope.ScopeOldest?
  }

  /** The answers only matter to entries of scope oldest. */
  lemma {:induction false} OldestUnread(ds: seq<Entry<Cut>>, c: nat, t: nat, coin: nat -> bool, a: Asked, a': Asked)
    requires (NoOldest(ds) || a == a') && c <= |ds|
    ensures Peek(ds, c, t, coin, a.peek) == Peek(ds, c, t, coin, a'.peek)
    ensures Hit(ds, c, Advance(ds, c, t), coin, a.consume) == Hit(ds, c, Advance(ds, c, t), coin, a'.consume)
  {
    if a != a' {
      forall i, o, o' | c <= i < |ds| ensures Targets(ds[i], coin, o) == Targets(ds[i], coin, o') {
        assert !ds[i].what.scope.ScopeOldest?;
      }
    }
  }

  /** The same submit as far as a bind with these entries can tell, the wall clock aside. */
  predicate SameSub(ds: seq<Entry<Cut>>, x: Sub, x': Sub) {
    x.content == x'.content && (NoOldest(ds) || x.registry == x'.registry)
  }

  function WithoutEdge(r: Record): Record {
    r.(verdict := r.verdict.(edge := None))
  }

  /** The same records up to the malformation stamped on each response. */
  predicate SameLog(a: seq<Record>, b: seq<Record>) {
    |a| == |b| && forall i :: 0 <= i < |a| ==> WithoutEdge(a[i]) == WithoutEdge(b[i])
  }

  ghost predicate SameLive<S>(l: Live<S>, l': Live<S>) {
    l'.(log := l.log) == l && SameLog(l.log, l'.log)
  }

  lemma {:induction false} SameVerdict<S>(e: Engine, e': Engine, src: Source<S>, b: Bind<S>, t: nat, now: int, now': int)
    requires Ready(e) && Ready(e') && b.gate.None? && e'.(edge := None) == e.(edge := None)
    ensures
      var (d, after) := Decide(e, src, b, t, now);
      var (d', after') := Decide(e', src, b, t, now');
      d'.(edge := None) == d.(edge := None) && after' == after && after.gate.None?
  {
    assert e' == e.(edge := e'.edge);
    EdgeCasesDrawNothing(e, e'.edge, src, b, t, now');
    ClockOnlyThroughGate(e, src, b, t, now, now');
  }

  lemma {:induction false} SameRecord<S>(
    v: Env<S>, v': Env<S>, tick: nat, x: Sub, x': Sub, p: Profile, d: Decision, d': Decision, withheld: bool)
    requires v'.ordinal == v.ordinal && v'.canReceive == v.canReceive && x.content == x'.content
    requires d'.(edge := None) == d.(edge := None)
    ensures WithoutEdge(RecordOf(v, tick, x, p, d, withheld)) == WithoutEdge(RecordOf(v', tick, x', p, d', withheld))
  {
  }

  lemma {:induction false} SameAppended(a: seq<Record>, b: seq<Record>, r: Record, r': Record)
    requires SameLog(a, b) && WithoutEdge(r) == WithoutEdge(r')
    ensures SameLog(a + [r], b + [r'])
  {
  }

  lemma {:induction false} SameCommitted<S>(v: Env<S>, v': Env<S>, l: Live<S>, l': Live<S>, x: Sub, x': Sub)
    requires ValidEnv(v) && ValidEnv(v') && ValidLive(v, l) && ValidLive(v', l')
    requires Alike(v, v') && SameLive(l, l') && l.bind.gate.None? && SameSub(v.disconnects, x, x')
    ensures SameLive(Committed(v, l, x), Committed(v', l', x')) && Committed(v, l, x).bind.gate.None?
  {
    var tick := l.clock + 1;
    var p := Switched(v, l, tick).1;
    assert Switched(v', l', tick) == Switched(v, l, tick);
    assert p in v.engines;
    SameVerdict(v.engines[p], v'.engines[p], v.src, l.bind, tick, x.now, x'.now);
    OldestUnread(v.disconnects, l.dcursor, tick, v.coin, x.registry, x'.registry);
    var withheld := Peek(v.disconnects, l.dcursor, tick, v.coin, x.registry.peek);
    var d, d' := Decide(v.engines[p], v.src, l.bind, tick, x.now).0, Decide(v'.engines[p], v.src, l.bind, tick, x'.now).0;
    SameRecord(v, v', tick, x, x', p, d, d', withheld);
    SameAppended(l.log, l'.log, RecordOf(v, tick, x, p, d, withheld), RecordOf(v', tick, x', p, d', withheld));
  }

  lemma {:induction false} SameSubmitted<S>(v: Env<S>, v': Env<S>, l: Live<S>, l': Live<S>, x: Sub, x': Sub)
    requires ValidEnv(v) && ValidEnv(v') && ValidLive(v, l) && ValidLive(v', l')
    requires Alike(v, v') && SameLive(l, l') && l.bind.gate.None? && SameSub(v.disconnects, x, x')
    ensures SameLive(Submitted(v, l, x), Submitted(v', l', x')) && Submitted(v, l, x).bind.gate.None?
  {
    SameCommitted(v, v', l, l', x, x');
    OldestUnread(v.disconnects, l.dcursor, l.clock + 1, v.coin, x.registry, x'.registry);
  }

  predicate SameSubs(ds: seq<Entry<Cut>>, xs: seq<Sub>, xs': seq<Sub>) {
    |xs| == |xs'| && forall i :: 0 <= i < |xs| ==> SameSub(ds, xs[i], xs'[i])
  }

  lemma {:induction false} SameLiveRun<S>(v: Env<S>, v': Env<S>, start: Live<S>, xs: seq<Sub>, xs': seq<Sub>)
    requires ValidEnv(v) && ValidEnv(v') && ValidLive(v, start) && ValidLive(v', start)
    requires Alike(v, v') && start.bind.gate.None? && SameSubs(v.disconnects, xs, xs')
    ensures SameLive(LiveRun(v, start, xs), LiveRun(v', start, xs')) && LiveRun(v, start, xs).bind.gate.None?
    decreases |xs|
  {
    if xs != [] {
      var n := |xs| - 1;
      SameLiveRun(v, v', start, xs[..n], xs'[..n]);
      SameSubmitted(v, v', LiveRun(v, start, xs[..n]), LiveRun(v', start, xs'[..n]), xs[n], xs'[n]);
    }
  }

  // ----- the schedule against the log -----

  /** The ticks that planned a receipt, read off the log. */
  function Plans(log: seq<Record>): seq<nat> {
    if log == [] then []
    else Plans(log[..|log| - 1]) + if log[|log| - 1].planned then [log[|log| - 1].tick] else []
  }

  lemma {:induction false} SamePlans(a: seq<Record>, b: seq<Record>)
    requires SameLog(a, b)
    ensures Plans(a) == Plans(b)
  {
    if a != [] {
      var n := |a| - 1;
      assert WithoutEdge(a[n]) == WithoutEdge(b[n]);
      SamePlans(a[..n], b[..n]);
    }
  }

  /** The schedule's own view of a run. */
  function Traces<S>(v: Env<S>, delay: nat, mos: seq<nat>, start: Live<S>, inputs: seq<Input>): seq<B.Input>
    requires ValidEnv(v) && ValidLive(v, start)
    decreases |inputs|
  {
    if inputs == [] then [] else
    var before := inputs[..|inputs| - 1];
    var t := Trace(v, Run(v, delay, mos, start, before).live, inputs[|inputs| - 1]);
    Extended(Traces(v, delay, mos, start, before), t)
  }

  /** What the log shows was handed to the schedule: `ts` has a submit per tick that kept the link up, planning the receipts the log planned. */
  predicate Shows<S>(l: Live<S>, ts: seq<B.Input>) {
    && B.PlannedReceipts(ts) == Plans(l.log)
    && B.Submits(ts) <= l.clock && (l.open ==> B.Submits(ts) == l.clock)
  }

  lemma {:induction false} ScheduleFollowsLog<S>(v: Env<S>, delay: nat, mos: seq<nat>, start: Live<S>, inputs: seq<Input>)
    requires ValidEnv(v) && ValidLive(v, start) && start.clock == 0
    ensures
      var s, ts := Run(v, delay, mos, start, inputs), Traces(v, delay, mos, start, inputs);
      s.sched == B.Run(mos, delay, ts) && Shows(s.live, ts) && s.live.clock <= |Subs(inputs)|
    decreases |inputs|
  {
    if inputs != [] {
      var before := inputs[..|inputs| - 1];
      ScheduleFollowsLog(v, delay, mos, start, before);
      ShownStep(v, delay, mos, Run(v, delay, mos, start, before), Traces(v, delay, mos, start, before), inputs[|inputs| - 1]);
    }
  }

  function Extended(ts: seq<B.Input>, t: Option<B.Input>): seq<B.Input> {
    ts + if t.Some? then [t.value] else []
  }

  lemma {:induction false} ShownStep<S>(v: Env<S>, delay: nat, mos: seq<nat>, s: State<S>, ts: seq<B.Input>, i: Input)
    requires ValidEnv(v) && ValidLive(v, s.live) && s.sched == B.Run(mos, delay, ts) && Shows(s.live, ts)
    ensures
      var s', ts' := Step(v, delay, s, i), Extended(ts, Trace(v, s.live, i));
      && s'.sched == B.Run(mos, delay, ts') && Shows(s'.live, ts')
      && s'.live.clock <= s.live.clock + if i.Submit? then 1 else 0
  {
    var t := Trace(v, s.live, i);
    if t.Some? {
      B.RunSnoc(mos, delay, ts, t.value);
    } else {
      assert Extended(ts, t) == ts;
    }
    if i.Submit? {
      ShownSubmit(v, s.live, ts, i.sub);
    }
  }

  lemma {:induction false} ShownSubmit<S>(v: Env<S>, l: Live<S>, ts: seq<B.Input>, x: Sub)
    requires ValidEnv(v) && ValidLive(v, l) && Shows(l, ts)
    ensures Shows(Submitted(v, l, x), Extended(ts, Trace(v, l, Submit(x))))
  {
    var t := Trace(v, l, Submit(x));
    if l.open {
      var m := Committed(v, l, x);
      assert m.log[..|l.log|] == l.log;
      if t.Some? {
        B.RunSnoc([], 0, ts, t.value);
      } else {
        assert Extended(ts, t) == ts;
      }
    } else {
      assert Extended(ts, t) == ts;
    }
  }

  // ----- binds of a configured virtual SMSC -----

  /** The surroundings of bind `ordinal` of a virtual SMSC; `walk` is the order in which this process walks the error mix. */
  function EnvOf<S>(c: Setup, walk: seq<Code>, src: Source<S>, coins: Coins, o: Origin, ordinal: nat, canReceive: bool): (v: Env<S>)
    requires Buildable(c.scenario, walk)
    ensures ValidEnv(v) && c.scenario.profile in v.engines
  {
    EnginesComplete(c, walk);
    SortKeeps(c.transitions);
    SortedTargets(c.transitions, EnginesOf(c, walk).Keys);
    Env(src, EnginesOf(c, walk), SortedByTick(c.transitions), SortedByTick(c.disconnects), CoinOn(coins, o), ordinal, canReceive)
  }

  lemma {:induction false} SortedTargets(ts: seq<Entry<Profile>>, ps: set<Profile>)
    requires forall i :: 0 <= i < |ts| ==> ts[i].what in ps
    ensures forall i :: 0 <= i < |SortedByTick(ts)| ==> SortedByTick(ts)[i].what in ps
  {
    SortKeeps(ts);
    forall i | 0 <= i < |SortedByTick(ts)| ensures SortedByTick(ts)[i].what in ps {
      assert SortedByTick(ts)[i] in multiset(SortedByTick(ts));
      assert SortedByTick(ts)[i] in ts;
    }
  }

  /** What does not change between the processes compared: the generator, the coins and the bind. */
  datatype Party<!S> = Party(src: Source<S>, coins: Coins, ordinal: nat, canReceive: bool)

  /** What may change between them: the map order, the time of the bind and what chaos would have given. */
  datatype Process<S> = Process(walk: seq<Code>, zero: int, chaos: (S, bv64))

  function OriginFor<S>(c: Setup, q: Party<S>, p: Process<S>): Origin {
    OriginOf(c.seed, c.nameHash, q.ordinal, p.chaos.1)
  }

  function EnvFor<S>(c: Setup, q: Party<S>, p: Process<S>): (v: Env<S>)
    requires Buildable(c.scenario, p.walk)
    ensures ValidEnv(v) && c.scenario.profile in v.engines
  {
    EnvOf(c, p.walk, q.src, q.coins, OriginFor(c, q, p), q.ordinal, q.canReceive)
  }

  /** A bind right after it succeeded. */
  function StartFor<S>(c: Setup, q: Party<S>, p: Process<S>): (l: Live<S>)
    requires Buildable(c.scenario, p.walk)
    ensures ValidLive(EnvFor(c, q, p), l) && Unused(l)
  {
    var s := StartState(q.src, c.seed, c.nameHash, q.ordinal, p.chaos.0);
    Live(Fresh(New(c.scenario, c.limit, p.walk), s, p.zero), 0, c.scenario.profile, 0, 0, true, [])
  }

  /**
    Under one seed two binds of a virtual SMSC, in any processes, whose generator tells seed words apart
    start in one state, or on one schedule base, only if their ordinals are one 64-bit word.
  */
  lemma {:induction false} PartiesStartApart<S>(
    c: Setup, start: ((bv64, bv64)) -> S, src: Source<S>, q: Party<S>, q': Party<S>, p: Process<S>, p': Process<S>)
    requires Buildable(c.scenario, p.walk) && Buildable(c.scenario, p'.walk) && c.seed.Some?
    requires (forall a, b :: start(a) == start(b) ==> a == b) && q.src == q'.src == FromWords(start, src)
    requires || StartFor(c, q, p).bind.rng == StartFor(c, q', p').bind.rng
             || BaseOf(OriginFor(c, q, p)) == BaseOf(OriginFor(c, q', p'))
    ensures OrdinalWord(q.ordinal) == OrdinalWord(q'.ordinal)
  {
    if StartFor(c, q, p).bind.rng == StartFor(c, q', p').bind.rng {
      BindsStartApart(start, src, c.seed.value, c.nameHash, q.ordinal, q'.ordinal);
    } else {
      Rng.BindsNeverShareBases(c.seed.value, c.nameHash, OrdinalWord(q.ordinal), OrdinalWord(q'.ordinal));
    }
  }

  /** The whole run of a bind of one process, from the bind on. */
  function BindRun<S>(c: Setup, q: Party<S>, p: Process<S>, inputs: seq<Input>): State<S>
    requires Buildable(c.scenario, p.walk)
  {
    Run(EnvFor(c, q, p), DelayOf(c), c.messages, StartFor(c, q, p), inputs)
  }

  /**
    What the submits of a client with the right credentials become: nothing while the initial carrier
    rejects binds, else the log of its bind.
  */
  function ServedLog<S>(c: Setup, q: Party<S>, p: Process<S>, inputs: seq<Input>): seq<Record>
    requires Buildable(c.scenario, p.walk)
  {
    if RejectsBinds(New(c.scenario, c.limit, p.walk)) then [] else BindRun(c, q, p, inputs).live.log
  }

  /** Two configurations that differ in the malformed-response settings only. */
  predicate SameSetup(c: Setup, c': Setup) {
    c'.(scenario := c'.scenario.(edgesEnabled := false, edges := None)) == c.(scenario := c.scenario.(edgesEnabled := false, edges := None))
  }

  predicate GateFree(c: Setup) {
    c.limit.None? && c.scenario.profile !in {ThrottlingCarrier, ThroughputCapped}
  }

  /** Emitted then waiting: each planned receipt once and the messages in their one order, whatever the delay. */
  predicate EmitsThePlan(s: B.State, receipts: seq<nat>, messages: seq<nat>) {
    && multiset(B.ReceiptsOf(s.out) + B.ReceiptsOf(s.pending)) == multiset(receipts)
    && B.MessagesOf(s.out) + B.MessagesOf(s.pending) == messages
  }

  /** The receipts leave in the order of the plan. */
  predicate EmitsInOrder(s: B.State, receipts: seq<nat>) {
    B.ReceiptsOf(s.out) + B.ReceiptsOf(s.pending) == receipts
  }

  /**
    Same seed, same run. Two processes, configured alike up to malformed-response settings and handling
    the same submits at any times, with keepalives and flushes anywhere, make the same verdicts,
    message ids, profile switches and cut and draw the same numbers; only entries of scope oldest can
    tell apart registries that answer differently. Both emit one planned set of receipts and one
    sequence of configured messages, however far each got, and prefixes of one sequence of receipts
    as long as clock plus delay does not wrap between two of the submits.
  */
  lemma {:induction false} SameSeedSameRun<S>(
    c: Setup, c': Setup, q: Party<S>, p: Process<S>, p': Process<S>, inputs: seq<Input>, inputs': seq<Input>)
    requires Buildable(c.scenario, p.walk) && Buildable(c'.scenario, p'.walk)
    requires c.seed.Some? && SameSetup(c, c') && GateFree(c)
    requires SameSubs(c.disconnects, Subs(inputs), Subs(inputs'))
    ensures
      var s, s' := BindRun(c, q, p, inputs), BindRun(c', q, p', inputs');
      var receipts, messages := Plans(s.live.log), B.MessagesOf(B.Start(c.messages).pending);
      && SameLive(s.live, s'.live)
      && EmitsThePlan(s.sched, receipts, messages) && EmitsThePlan(s'.sched, receipts, messages)
      && (B.Orderly(DelayOf(c), s.live.clock) ==> EmitsInOrder(s.sched, receipts) && EmitsInOrder(s'.sched, receipts))
  {
    var v, v', start := EnvFor(c, q, p), EnvFor(c', q, p'), StartFor(c, q, p);
    assert start == StartFor(c', q, p') && start.bind.gate.None?;
    SetupsAlike(c, c', p.walk, p'.walk);
    SortedSubs(c.disconnects, Subs(inputs), Subs(inputs'));
    assert Alike(v, v');
    SameRuns(v, v', DelayOf(c), c.messages, start, inputs, inputs');
  }

  /** The two runs, past the configuration. */
  lemma {:induction false} SameRuns<S>(v: Env<S>, v': Env<S>, delay: nat, mos: seq<nat>, start: Live<S>, inputs: seq<Input>, inputs': seq<Input>)
    requires ValidEnv(v) && ValidEnv(v') && ValidLive(v, start) && ValidLive(v', start) && start.clock == 0
    requires Alike(v, v') && start.bind.gate.None? && SameSubs(v.disconnects, Subs(inputs), Subs(inputs'))
    ensures
      var s, s' := Run(v, delay, mos, start, inputs), Run(v', delay, mos, start, inputs');
      var receipts, messages := Plans(s.live.log), B.MessagesOf(B.Start(mos).pending);
      && SameLive(s.live, s'.live)
      && EmitsThePlan(s.sched, receipts, messages) && EmitsThePlan(s'.sched, receipts, messages)
      && (B.Orderly(delay, s.live.clock) ==> EmitsInOrder(s.sched, receipts) && EmitsInOrder(s'.sched, receipts))
  {
    DecisionsFollowSubmits(v, delay, mos, start, inputs);
    DecisionsFollowSubmits(v', delay, mos, start, inputs');
    SameLiveRun(v, v', start, Subs(inputs), Subs(inputs'));
    SamePlans(Run(v, delay, mos, start, inputs).live.log, Run(v', delay, mos, start, inputs').live.log);
    EmissionFollowsLog(v, delay, mos, start, inputs);
    EmissionFollowsLog(v', delay, mos, start, inputs');
  }

  lemma {:induction false} SortedSubs(ds: seq<Entry<Cut>>, xs: seq<Sub>, xs': seq<Sub>)
    requires SameSubs(ds, xs, xs')
    ensures SameSubs(SortedByTick(ds), xs, xs')
  {
    if NoOldest(ds) {
      SortKeeps(ds);
      forall i | 0 <= i < |SortedByTick(ds)| ensures !SortedByTick(ds)[i].what.scope.ScopeOldest? {
        assert SortedByTick(ds)[i] in multiset(SortedByTick(ds));
        assert SortedByTick(ds)[i] in ds;
      }
    }
    forall i | 0 <= i < |xs| ensures SameSub(SortedByTick(ds), xs[i], xs'[i]) {
      assert SameSub(ds, xs[i], xs'[i]);
    }
  }

  lemma {:induction false} SetupsAlike(c: Setup, c': Setup, walk: seq<Code>, walk': seq<Code>)
    requires ListsMix(walk, c.scenario.params) && ListsMix(walk', c'.scenario.params) && SameSetup(c, c')
    ensures SameButEdges(EnginesOf(c, walk), EnginesOf(c', walk')) && DelayOf(c) == DelayOf(c')
  {
    NewIgnoresMapOrder(c.scenario, c.limit, walk, walk');
    assert New(c'.scenario, c'.limit, walk').(edge := None) == New(c.scenario, c.limit, walk').(edge := None);
  }

  lemma {:induction false} EmissionFollowsLog<S>(v: Env<S>, delay: nat, mos: seq<nat>, start: Live<S>, inputs: seq<Input>)
    requires ValidEnv(v) && ValidLive(v, start) && start.clock == 0
    ensures
      var s := Run(v, delay, mos, start, inputs);
      && EmitsThePlan(s.sched, Plans(s.live.log), B.MessagesOf(B.Start(mos).pending))
      && (B.Orderly(delay, s.live.clock) ==> EmitsInOrder(s.sched, Plans(s.live.log)))
  {
    ScheduleFollowsLog(v, delay, mos, start, inputs);
    var ts := Traces(v, delay, mos, start, inputs);
    B.RunKept(mos, delay, ts);
    var s := B.Run(mos, delay, ts);
    B.ReceiptsSplit(s.out, s.pending);
    B.MessagesSplit(s.out, s.pending);
  }

  /** The coin of this bind. */
  function CoinOf<S>(c: Setup, q: Party<S>, p: Process<S>): nat -> bool {
    CoinOn(q.coins, OriginFor(c, q, p))
  }

  /** Tick t of a run: its message id, and the last configured transition reached, the initial profile if none is. */
  ghost predicate RanAsConfigured(c: Setup, ordinal: nat, r: Record) {
    && r.id == R.MessageId(ordinal, r.tick)
    && (|| ((forall j :: 0 <= j < |c.transitions| ==> c.transitions[j].at > r.tick) && r.profile == c.scenario.profile)
        || (exists j :: LatestReached(c.transitions, r.tick, j) && r.profile == c.transitions[j].what))
  }

  /**
    A run meets its configuration: every tick runs under the transition in force, and the link goes
    down when the disconnect schedule, read on the entries as configured and on what the registry
    answered, says so or the carrier drops it.
  */
  lemma {:induction false} RunMeetsConfiguration<S>(c: Setup, q: Party<S>, p: Process<S>, inputs: seq<Input>)
    requires Buildable(c.scenario, p.walk)
    ensures
      var l := BindRun(c, q, p, inputs).live;
      forall i :: 0 <= i < |l.log| ==> RanAsConfigured(c, q.ordinal, l.log[i])
    ensures
      var l, coin := BindRun(c, q, p, inputs).live, CoinOf(c, q, p);
      && l.clock <= |Subs(inputs)|
      && var asked := AskedOf(Subs(inputs))[..l.clock];
         CutAgrees(l, LifeAfter(c.disconnects, asked, coin)) && CutOnTime(c.disconnects, asked, coin, LifeAfter(c.disconnects, asked, coin))
  {
    var v, start := EnvFor(c, q, p), StartFor(c, q, p);
    var l := BindRun(c, q, p, inputs).live;
    DecisionsFollowSubmits(v, DelayOf(c), c.messages, start, inputs);
    LogFollowsTransitions(v, start, Subs(inputs), c.transitions, c.disconnects);
    forall i | 0 <= i < |l.log| ensures RanAsConfigured(c, q.ordinal, l.log[i]) {
      assert RanInForce(l.log[i], c.transitions, c.scenario.profile, q.ordinal);
      TransitionsInForce(c.transitions, c.scenario.profile, l.log[i].tick);
    }
    assert v.coin == CoinOf(c, q, p);
    CutsFollowSchedule(v, start, Subs(inputs), c.transitions, c.disconnects);
    DisconnectsOnTime(c.disconnects, AskedOf(Subs(inputs))[..l.clock], v.coin);
  }
}
