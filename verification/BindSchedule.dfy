/**
  One bind's schedule over a whole run: mobile-originated messages enqueued at the bind, a receipt
  per successful submit at a fixed delay, a drain at every submit, and quiescence flushes anywhere.
*/
module BindSchedule {
  import opened Wrappers
  import opened Schedule

  datatype Payload = Receipt(tick: nat) | MobileOriginated(index: nat)

  type Ev = Event<Payload>

  /** What happens on the bind: a submit that plans a receipt or not, or a flush after silence. */
  datatype Input = Submit(planned: bool) | Flush

  /** `out` is everything emitted so far, in order. */
  datatype State = State(pending: seq<Ev>, seqno: nat, clock: nat, out: seq<Ev>)

  /** uint64 addition. */
  function DueTick(clock: nat, delay: nat): nat {
    (clock + delay) % TWO_64
  }

  function Enqueue(s: State, due: nat, p: Payload): State {
    s.(pending := Place(s.pending, Event(due, s.seqno, p)), seqno := s.seqno + 1)
  }

  function Drain(s: State): State {
    var due := Due(s.pending, s.clock);
    s.(pending := s.pending[|due|..], out := s.out + due)
  }

  /** A submit before its drain. */
  function Advanced(s: State, delay: nat, planned: bool): State {
    var t := s.(clock := s.clock + 1);
    if planned then Enqueue(t, DueTick(t.clock, delay), Receipt(t.clock)) else t
  }

  function Step(s: State, delay: nat, i: Input): State {
    match i
    case Submit(planned) => Drain(Advanced(s, delay, planned))
    case Flush => s.(pending := [], out := s.out + s.pending)
  }

  /** The bind's state after its configured messages at ticks `mos` were enqueued, in config order. */
  function Start(mos: seq<nat>): State {
    if mos == [] then State([], 0, 0, [])
    else Enqueue(Start(mos[..|mos| - 1]), mos[|mos| - 1], MobileOriginated(|mos| - 1))
  }

  function Run(mos: seq<nat>, delay: nat, inputs: seq<Input>): State {
    if inputs == [] then Start(mos)
    else Step(Run(mos, delay, inputs[..|inputs| - 1]), delay, inputs[|inputs| - 1])
  }

  // ----- what a run should emit, read off its inputs -----

  function Submits(inputs: seq<Input>): nat {
    if inputs == [] then 0
    else Submits(inputs[..|inputs| - 1]) + if inputs[|inputs| - 1].Submit? then 1 else 0
  }

  /** The receipt an input at the given clock plans. */
  function PlannedBy(i: Input, clock: nat): seq<nat> {
    if i == Submit(true) then [clock + 1] else []
  }

  /** The ticks of the submits that planned a receipt, in submit order. */
  function PlannedReceipts(inputs: seq<Input>): seq<nat> {
    if inputs == [] then [] else
    var before := inputs[..|inputs| - 1];
    PlannedReceipts(before) + PlannedBy(inputs[|inputs| - 1], Submits(before))
  }

  function TickOf(e: Ev): seq<nat> {
    if e.payload.Receipt? then [e.payload.tick] else []
  }

  /** The receipts among `es`, by origin tick, in order. */
  function ReceiptsOf(es: seq<Ev>): seq<nat> {
    if es == [] then [] else TickOf(es[0]) + ReceiptsOf(es[1..])
  }

  function IndexOf(e: Ev): seq<nat> {
    if e.payload.MobileOriginated? then [e.payload.index] else []
  }

  /** The mobile-originated messages among `es`, by config index, in order. */
  function MessagesOf(es: seq<Ev>): seq<nat> {
    if es == [] then [] else IndexOf(es[0]) + MessagesOf(es[1..])
  }

  /** Config order within a tick, tick order otherwise. */
  predicate InTickOrder(mos: seq<nat>, order: seq<nat>) {
    && (forall i :: 0 <= i < |order| ==> order[i] < |mos|)
    && (forall i, j :: 0 <= i < j < |order| ==>
          mos[order[i]] < mos[order[j]] || (mos[order[i]] == mos[order[j]] && order[i] < order[j]))
  }

  // ----- filters over concatenation and insertion -----

  lemma {:induction false} Regroup(x: seq<nat>, y: seq<nat>, z: seq<nat>)
    ensures x + (y + z) == (x + y) + z
  {
  }

  lemma {:induction false} Tail(a: seq<Ev>, b: seq<Ev>)
    requires a != []
    ensures a + b != [] && (a + b)[0] == a[0] && (a + b)[1..] == a[1..] + b
  {
  }

  lemma {:induction false} ReceiptsSplit(a: seq<Ev>, b: seq<Ev>)
    ensures ReceiptsOf(a + b) == ReceiptsOf(a) + ReceiptsOf(b)
  {
    if a == [] {
      assert a + b == b;
    } else {
      Tail(a, b);
      ReceiptsSplit(a[1..], b);
      Regroup(TickOf(a[0]), ReceiptsOf(a[1..]), ReceiptsOf(b));
    }
  }

  lemma {:induction false} MessagesSplit(a: seq<Ev>, b: seq<Ev>)
    ensures MessagesOf(a + b) == MessagesOf(a) + MessagesOf(b)
  {
    if a == [] {
      assert a + b == b;
    } else {
      Tail(a, b);
      MessagesSplit(a[1..], b);
      Regroup(IndexOf(a[0]), MessagesOf(a[1..]), MessagesOf(b));
    }
  }

  /** A receipt put in its place moves no message. */
  lemma {:induction false} MessagesStay(es: seq<Ev>, e: Ev)
    requires e.payload.Receipt?
    ensures MessagesOf(Place(es, e)) == MessagesOf(es)
  {
    if es == [] || Before(e, es[0]) {
      assert ([e] + es)[1..] == es;
    } else {
      MessagesStay(es[1..], e);
      assert ([es[0]] + Place(es[1..], e))[1..] == Place(es[1..], e);
    }
  }

  /** Nothing after an event that follows `e` can be a receipt that precedes `e`. */
  lemma {:induction false} NoReceipts(es: seq<Ev>, e: Ev)
    requires Sorted(es) && (es != [] ==> Before(e, es[0]))
    requires forall i :: 0 <= i < |es| && es[i].payload.Receipt? ==> Before(es[i], e)
    ensures ReceiptsOf(es) == []
  {
    if es != [] {
      assert es[1..] != [] ==> Before(es[0], es[1]);
      NoReceipts(es[1..], e);
    }
  }

  /** A receipt after every receipt that waits is placed after them. */
  lemma {:induction false} ReceiptPlacedLast(es: seq<Ev>, e: Ev)
    requires Sorted(es) && e.payload.Receipt?
    requires forall i :: 0 <= i < |es| && es[i].payload.Receipt? ==> Before(es[i], e)
    ensures ReceiptsOf(Place(es, e)) == ReceiptsOf(es) + [e.payload.tick]
  {
    if es == [] || Before(e, es[0]) {
      assert ([e] + es)[1..] == es;
      NoReceipts(es, e);
    } else {
      var rest := es[1..];
      ReceiptPlacedLast(rest, e);
      assert ([es[0]] + Place(rest, e))[1..] == Place(rest, e);
      Regroup(TickOf(es[0]), ReceiptsOf(rest), [e.payload.tick]);
    }
  }

  // ----- invariants of a run -----

  /** Receipts fire in submit order only while clock plus delay does not pass the end of the tick range between two submits. */
  predicate NoWrapWithin(delay: nat, submits: nat) {
    !(1 <= TWO_64 - 1 - delay < submits)
  }

  /** The runs over which submit order is promised. */
  predicate Orderly(delay: nat, submits: nat) {
    delay < TWO_64 && submits < TWO_64 && NoWrapWithin(delay, submits)
  }

  ghost predicate Consistent(s: State, delay: nat) {
    && Sorted(s.pending)
    && (forall i :: 0 <= i < |s.pending| ==> s.pending[i].seqno < s.seqno)
    && (forall i :: 0 <= i < |s.pending| && s.pending[i].payload.Receipt? ==>
          1 <= s.pending[i].payload.tick <= s.clock && s.pending[i].due == DueTick(s.pending[i].payload.tick, delay))
  }

  lemma {:induction false} DueMonotone(delay: nat, submits: nat, a: nat, b: nat)
    requires Orderly(delay, submits) && 1 <= a <= b <= submits
    ensures DueTick(a, delay) <= DueTick(b, delay)
  {
    assert b + delay < TWO_64 || TWO_64 <= a + delay;
  }

  lemma {:induction false} EnqueueConsistent(s: State, delay: nat, due: nat, p: Payload)
    requires Consistent(s, delay)
    requires p.Receipt? ==> 1 <= p.tick <= s.clock && due == DueTick(p.tick, delay)
    ensures Consistent(Enqueue(s, due, p), delay)
  {
    PlaceSorted(s.pending, Event(due, s.seqno, p));
    var r := Enqueue(s, due, p).pending;
    forall i | 0 <= i < |r| ensures r[i] == Event(due, s.seqno, p) || r[i] in s.pending {
      assert r[i] in r;
    }
  }

  /** Before any submit only configured messages wait, each carrying its tick and its place in the config. */
  predicate Configured(mos: seq<nat>, e: Ev) {
    e.payload.MobileOriginated? && e.payload.index == e.seqno < |mos| && e.due == mos[e.seqno]
  }

  lemma {:induction false} StartConsistent(mos: seq<nat>, delay: nat)
    ensures var s := Start(mos); Consistent(s, delay) && s.clock == 0 && s.out == [] && s.seqno == |mos|
    ensures forall i :: 0 <= i < |Start(mos).pending| ==> Configured(mos, Start(mos).pending[i])
  {
    if mos != [] {
      var before := mos[..|mos| - 1];
      StartConsistent(before, delay);
      var s := Start(before);
      var e := Event(mos[|mos| - 1], s.seqno, MobileOriginated(|mos| - 1));
      EnqueueConsistent(s, delay, e.due, e.payload);
      PlaceSorted(s.pending, e);
      var r := Start(mos).pending;
      forall i | 0 <= i < |r| ensures Configured(mos, r[i]) {
        assert r[i] in r;
        if r[i] != e {
          var k :| 0 <= k < |s.pending| && s.pending[k] == r[i];
          assert Configured(before, s.pending[k]);
        }
      }
    }
  }

  /** Every configured message waits exactly once. */
  lemma {:induction false} StartHasAll(mos: seq<nat>)
    ensures multiset(MessagesOf(Start(mos).pending)) == multiset(Upto(|mos|))
  {
    if mos != [] {
      var before := mos[..|mos| - 1];
      StartHasAll(before);
      StartConsistent(before, 0);
      var s := Start(before);
      MessagesPlace(s.pending, Event(mos[|mos| - 1], s.seqno, MobileOriginated(|mos| - 1)));
    }
  }

  lemma {:induction false} MessagesPlace(es: seq<Ev>, e: Ev)
    requires e.payload.MobileOriginated?
    ensures multiset(MessagesOf(Place(es, e))) == multiset(MessagesOf(es)) + multiset{e.payload.index}
  {
    if es == [] || Before(e, es[0]) {
      assert ([e] + es)[1..] == es;
    } else {
      MessagesPlace(es[1..], e);
      assert ([es[0]] + Place(es[1..], e))[1..] == Place(es[1..], e);
    }
  }

  /** The configured messages wait in (at_tick, config order). */
  lemma {:induction false} StartInTickOrder(mos: seq<nat>)
    ensures InTickOrder(mos, MessagesOf(Start(mos).pending))
  {
    StartConsistent(mos, 0);
    var es := Start(mos).pending;
    forall i | 0 <= i < |es| ensures es[i].payload.MobileOriginated? {
      assert Configured(mos, es[i]);
    }
    AllMessages(es);
    var order := MessagesOf(es);
    forall i, j | 0 <= i < j < |order|
      ensures order[j] < |mos| && order[i] < |mos|
      ensures mos[order[i]] < mos[order[j]] || (mos[order[i]] == mos[order[j]] && order[i] < order[j])
    {
      assert Configured(mos, es[i]) && Configured(mos, es[j]) && Before(es[i], es[j]);
    }
    forall i | 0 <= i < |order| ensures order[i] < |mos| {
      assert Configured(mos, es[i]);
    }
  }

  lemma {:induction false} AllMessages(es: seq<Ev>)
    requires forall i :: 0 <= i < |es| ==> es[i].payload.MobileOriginated?
    ensures |MessagesOf(es)| == |es| && forall i :: 0 <= i < |es| ==> MessagesOf(es)[i] == es[i].payload.index
  {
    if es != [] {
      AllMessages(es[1..]);
    }
  }

  /** The receipt of the submit at the current tick fires after every receipt still waiting. */
  lemma {:induction false} PlannedLast(t: State, delay: nat)
    requires Consistent(t, delay) && 1 <= t.clock && Orderly(delay, t.clock)
    ensures var e := Event(DueTick(t.clock, delay), t.seqno, Receipt(t.clock));
            forall i :: 0 <= i < |t.pending| && t.pending[i].payload.Receipt? ==> Before(t.pending[i], e)
  {
    forall i | 0 <= i < |t.pending| && t.pending[i].payload.Receipt?
      ensures Before(t.pending[i], Event(DueTick(t.clock, delay), t.seqno, Receipt(t.clock))) {
      DueMonotone(delay, t.clock, t.pending[i].payload.tick, t.clock);
    }
  }

  /** Everything emitted, then everything waiting: a drain or a flush does not change it. */
  function All(s: State): seq<Ev> {
    s.out + s.pending
  }

  /** `s` has emitted or holds each of the planned `receipts` once, in submit order as long as no wrap falls between two submits. */
  ghost predicate Accounts(s: State, delay: nat, receipts: seq<nat>) {
    && multiset(ReceiptsOf(All(s))) == multiset(receipts)
    && (Orderly(delay, s.clock) ==> ReceiptsOf(All(s)) == receipts)
  }

  /** What every run keeps, whatever its delay and length. */
  ghost predicate Kept(messages: seq<nat>, delay: nat, s: State, receipts: seq<nat>) {
    && Consistent(s, delay) && Accounts(s, delay, receipts)
    && MessagesOf(All(s)) == messages
  }

  lemma {:induction false} StartKept(mos: seq<nat>, delay: nat)
    ensures Kept(MessagesOf(Start(mos).pending), delay, Start(mos), [])
  {
    StartConsistent(mos, delay);
    var es := Start(mos).pending;
    forall i | 0 <= i < |es| ensures !es[i].payload.Receipt? {
      assert Configured(mos, es[i]);
    }
    NoReceiptEvents(es);
    assert All(Start(mos)) == es;
  }

  /** A drain or a flush moves events from waiting to emitted. */
  lemma {:induction false} MoveKept(messages: seq<nat>, delay: nat, s: State, s': State, receipts: seq<nat>)
    requires Kept(messages, delay, s, receipts) && All(s') == All(s) && s'.clock == s.clock && Consistent(s', delay)
    ensures Kept(messages, delay, s', receipts)
  {
  }

  /** A later part of what waits is as consistent. */
  lemma {:induction false} LaterConsistent(s: State, delay: nat, n: nat, out: seq<Ev>)
    requires Consistent(s, delay) && n <= |s.pending|
    ensures Consistent(s.(pending := s.pending[n..], out := out), delay)
  {
  }

  lemma {:induction false} DrainMoves(s: State)
    ensures All(Drain(s)) == All(s)
  {
    var due := Due(s.pending, s.clock);
    DueIsPrefix(s.pending, s.clock);
    assert s.pending == due + s.pending[|due|..];
    assert s.out + due + s.pending[|due|..] == s.out + s.pending;
  }

  lemma {:induction false} DrainKept(messages: seq<nat>, delay: nat, s: State, receipts: seq<nat>)
    requires Kept(messages, delay, s, receipts)
    ensures Kept(messages, delay, Drain(s), receipts)
    ensures forall i :: 0 <= i < |Drain(s).pending| ==> Drain(s).pending[i].due > s.clock
  {
    DueExact(s.pending, s.clock);
    DrainMoves(s);
    LaterConsistent(s, delay, |Due(s.pending, s.clock)|, Drain(s).out);
    MoveKept(messages, delay, s, Drain(s), receipts);
  }

  lemma {:induction false} FlushKept(messages: seq<nat>, delay: nat, s: State, receipts: seq<nat>)
    requires Kept(messages, delay, s, receipts)
    ensures Kept(messages, delay, Step(s, delay, Flush), receipts + PlannedBy(Flush, s.clock))
  {
    NothingPlanned(receipts, Flush, s.clock);
    MoveKept(messages, delay, s, Step(s, delay, Flush), receipts);
  }

  /** A tick without a receipt. */
  lemma {:induction false} TickKept(messages: seq<nat>, delay: nat, s: State, receipts: seq<nat>)
    requires Kept(messages, delay, s, receipts)
    ensures Kept(messages, delay, s.(clock := s.clock + 1), receipts)
  {
    assert All(s.(clock := s.clock + 1)) == All(s);
  }

  lemma {:induction false} ReceiptsPlace(es: seq<Ev>, e: Ev)
    requires e.payload.Receipt?
    ensures multiset(ReceiptsOf(Place(es, e))) == multiset(ReceiptsOf(es)) + multiset{e.payload.tick}
  {
    if es == [] || Before(e, es[0]) {
      assert ([e] + es)[1..] == es;
    } else {
      ReceiptsPlace(es[1..], e);
      assert ([es[0]] + Place(es[1..], e))[1..] == Place(es[1..], e);
    }
  }

  /** What planning the receipt of the current tick does to what waits. */
  lemma {:induction false} PlanPending(t: State, delay: nat)
    requires Consistent(t, delay) && 1 <= t.clock
    ensures
      var waiting := Enqueue(t, DueTick(t.clock, delay), Receipt(t.clock)).pending;
      && MessagesOf(waiting) == MessagesOf(t.pending)
      && multiset(ReceiptsOf(waiting)) == multiset(ReceiptsOf(t.pending)) + multiset{t.clock}
      && (Orderly(delay, t.clock) ==> ReceiptsOf(waiting) == ReceiptsOf(t.pending) + [t.clock])
  {
    var e := Event(DueTick(t.clock, delay), t.seqno, Receipt(t.clock));
    MessagesStay(t.pending, e);
    ReceiptsPlace(t.pending, e);
    if Orderly(delay, t.clock) {
      PlannedLast(t, delay);
      ReceiptPlacedLast(t.pending, e);
    }
  }

  /** What waits grows by one receipt: so does everything emitted and waiting. */
  lemma {:induction false} PlanAccounts(t: State, u: State, delay: nat, receipts: seq<nat>)
    requires Accounts(t, delay, receipts) && u.out == t.out && u.clock == t.clock
    requires multiset(ReceiptsOf(u.pending)) == multiset(ReceiptsOf(t.pending)) + multiset{t.clock}
    requires Orderly(delay, t.clock) ==> ReceiptsOf(u.pending) == ReceiptsOf(t.pending) + [t.clock]
    ensures Accounts(u, delay, receipts + [t.clock])
  {
    ReceiptsSplit(t.out, t.pending);
    ReceiptsSplit(t.out, u.pending);
    if Orderly(delay, t.clock) {
      Regroup(ReceiptsOf(t.out), ReceiptsOf(t.pending), [t.clock]);
    }
  }

  lemma {:induction false} SameMessages(t: State, u: State)
    requires u.out == t.out && MessagesOf(u.pending) == MessagesOf(t.pending)
    ensures MessagesOf(All(u)) == MessagesOf(All(t))
  {
    MessagesSplit(t.out, t.pending);
    MessagesSplit(t.out, u.pending);
  }

  lemma {:induction false} PlanKept(messages: seq<nat>, delay: nat, t: State, receipts: seq<nat>)
    requires Kept(messages, delay, t, receipts) && 1 <= t.clock
    ensures Kept(messages, delay, Enqueue(t, DueTick(t.clock, delay), Receipt(t.clock)), receipts + PlannedBy(Submit(true), t.clock - 1))
  {
    var u := Enqueue(t, DueTick(t.clock, delay), Receipt(t.clock));
    EnqueueConsistent(t, delay, DueTick(t.clock, delay), Receipt(t.clock));
    PlanPending(t, delay);
    PlanAccounts(t, u, delay, receipts);
    SameMessages(t, u);
  }

  lemma {:induction false} NothingPlanned(receipts: seq<nat>, i: Input, clock: nat)
    requires i != Submit(true)
    ensures receipts + PlannedBy(i, clock) == receipts
  {
  }

  lemma {:induction false} SilentKept(messages: seq<nat>, delay: nat, s: State, receipts: seq<nat>)
    requires Kept(messages, delay, s, receipts)
    ensures Kept(messages, delay, Advanced(s, delay, false), receipts + PlannedBy(Submit(false), s.clock))
  {
    NothingPlanned(receipts, Submit(false), s.clock);
    TickKept(messages, delay, s, receipts);
  }

  lemma {:induction false} PlannedKept(messages: seq<nat>, delay: nat, s: State, receipts: seq<nat>)
    requires Kept(messages, delay, s, receipts)
    ensures Kept(messages, delay, Advanced(s, delay, true), receipts + PlannedBy(Submit(true), s.clock))
  {
    TickKept(messages, delay, s, receipts);
    PlanKept(messages, delay, s.(clock := s.clock + 1), receipts);
  }

  /** A submit before its drain. */
  lemma {:induction false} AdvanceKept(messages: seq<nat>, delay: nat, s: State, receipts: seq<nat>, planned: bool)
    requires Kept(messages, delay, s, receipts)
    ensures Kept(messages, delay, Advanced(s, delay, planned), receipts + PlannedBy(Submit(planned), s.clock))
  {
    if planned {
      PlannedKept(messages, delay, s, receipts);
    } else {
      SilentKept(messages, delay, s, receipts);
    }
  }

  lemma {:induction false} SubmitKept(messages: seq<nat>, delay: nat, s: State, receipts: seq<nat>, planned: bool)
    requires Kept(messages, delay, s, receipts)
    ensures
      var s' := Step(s, delay, Submit(planned));
      && Kept(messages, delay, s', receipts + PlannedBy(Submit(planned), s.clock))
      && s'.clock == s.clock + 1
      && forall i :: 0 <= i < |s'.pending| ==> s'.pending[i].due > s'.clock
  {
    AdvanceKept(messages, delay, s, receipts, planned);
    DrainKept(messages, delay, Advanced(s, delay, planned), receipts + PlannedBy(Submit(planned), s.clock));
  }

  lemma {:induction false} StepKept(messages: seq<nat>, delay: nat, s: State, receipts: seq<nat>, i: Input)
    requires Kept(messages, delay, s, receipts)
    ensures Kept(messages, delay, Step(s, delay, i), receipts + PlannedBy(i, s.clock))
    ensures Step(s, delay, i).clock == s.clock + if i.Submit? then 1 else 0
  {
    if i.Submit? {
      SubmitKept(messages, delay, s, receipts, i.planned);
    } else {
      FlushKept(messages, delay, s, receipts);
    }
  }

  /** The state of a run, invariants included. */
  lemma {:induction false} RunKept(mos: seq<nat>, delay: nat, inputs: seq<Input>)
    ensures Kept(MessagesOf(Start(mos).pending), delay, Run(mos, delay, inputs), PlannedReceipts(inputs))
    ensures Run(mos, delay, inputs).clock == Submits(inputs)
  {
    if inputs == [] {
      StartConsistent(mos, delay);
      StartKept(mos, delay);
    } else {
      var before := inputs[..|inputs| - 1];
      RunKept(mos, delay, before);
      StepKept(MessagesOf(Start(mos).pending), delay, Run(mos, delay, before), PlannedReceipts(before), inputs[|inputs| - 1]);
    }
  }

  lemma {:induction false} NoReceiptEvents(es: seq<Ev>)
    requires forall i :: 0 <= i < |es| ==> !es[i].payload.Receipt?
    ensures ReceiptsOf(es) == []
  {
    if es != [] {
      NoReceiptEvents(es[1..]);
    }
  }

  /**
    For every delay and every placement of drains and flushes, what left the bind and what still waits
    is each planned receipt once, and every configured message once in (at_tick, config order).
  */
  lemma {:induction false} EmittedThenPendingIsPlanned(mos: seq<nat>, delay: nat, inputs: seq<Input>)
    ensures
      var s := Run(mos, delay, inputs);
      && multiset(ReceiptsOf(s.out) + ReceiptsOf(s.pending)) == multiset(PlannedReceipts(inputs))
      && InTickOrder(mos, MessagesOf(s.out) + MessagesOf(s.pending))
      && multiset(MessagesOf(s.out) + MessagesOf(s.pending)) == multiset(Upto(|mos|))
  {
    var s := Run(mos, delay, inputs);
    RunKept(mos, delay, inputs);
    ReceiptsSplit(s.out, s.pending);
    MessagesSplit(s.out, s.pending);
    StartInTickOrder(mos);
    StartHasAll(mos);
  }

  /** As long as clock plus delay does not wrap between two submits, the receipts leave in submit order. */
  lemma {:induction false} ReceiptsLeaveInSubmitOrder(mos: seq<nat>, delay: nat, inputs: seq<Input>)
    requires Orderly(delay, Submits(inputs))
    ensures InSubmitOrder(mos, delay, inputs)
  {
    var s := Run(mos, delay, inputs);
    RunKept(mos, delay, inputs);
    ReceiptsSplit(s.out, s.pending);
  }

  /** After a submit nothing the clock has reached still waits, whatever the delay. */
  lemma {:induction false} NothingDueWaits(mos: seq<nat>, delay: nat, inputs: seq<Input>, i: nat)
    requires inputs != [] && inputs[|inputs| - 1].Submit?
    requires i < |Run(mos, delay, inputs).pending|
    ensures Run(mos, delay, inputs).pending[i].due > Submits(inputs)
  {
    var before := inputs[..|inputs| - 1];
    RunKept(mos, delay, before);
    SubmitKept(MessagesOf(Start(mos).pending), delay, Run(mos, delay, before), PlannedReceipts(before), inputs[|inputs| - 1].planned);
  }

  // ----- exactly when an event leaves -----

  /** What left from `s` to `s'` was due at the clock of `s'`, and what still waits is not. */
  predicate OnTime(s: State, s': State) {
    && s.out <= s'.out && (forall i :: |s.out| <= i < |s'.out| ==> s'.out[i].due <= s'.clock)
    && (forall i :: 0 <= i < |s'.pending| ==> s'.pending[i].due > s'.clock)
  }

  lemma {:induction false} SubmitOnTime(s: State, delay: nat, planned: bool)
    requires Sorted(s.pending) && forall i :: 0 <= i < |s.pending| ==> s.pending[i].seqno < s.seqno
    ensures OnTime(s, Step(s, delay, Submit(planned)))
  {
    var t := Advanced(s, delay, planned);
    if planned {
      PlaceSorted(s.pending, Event(DueTick(t.clock, delay), s.seqno, Receipt(t.clock)));
    }
    DueExact(t.pending, t.clock);
  }

  /** In every run, what a submit releases has a due tick its clock has reached: nothing leaves early but by a flush. */
  lemma {:induction false} NothingLeavesEarly(mos: seq<nat>, delay: nat, inputs: seq<Input>, planned: bool)
    ensures
      var before, after := Run(mos, delay, inputs), Run(mos, delay, inputs + [Submit(planned)]);
      && before.out <= after.out
      && forall i :: |before.out| <= i < |after.out| ==> after.out[i].due <= Submits(inputs) + 1
  {
    var before := Run(mos, delay, inputs);
    RunSnoc(mos, delay, inputs, Submit(planned));
    RunKept(mos, delay, inputs);
    SubmitOnTime(before, delay, planned);
    StepKept(MessagesOf(Start(mos).pending), delay, before, PlannedReceipts(inputs), Submit(planned));
  }

  /** A flush releases everything that waits, in order. */
  lemma {:induction false} FlushReleasesAll(mos: seq<nat>, delay: nat, inputs: seq<Input>)
    ensures
      var before, after := Run(mos, delay, inputs), Run(mos, delay, inputs + [Flush]);
      after.pending == [] && after.out == before.out + before.pending && after.clock == before.clock
  {
    RunSnoc(mos, delay, inputs, Flush);
  }

  /** No silence long enough for a flush. */
  predicate Busy(inputs: seq<Input>) {
    forall i :: 0 <= i < |inputs| ==> inputs[i].Submit?
  }

  /** Without a flush everything that left was due. */
  lemma {:induction false} LeftWhenDue(mos: seq<nat>, delay: nat, inputs: seq<Input>)
    requires Busy(inputs)
    ensures forall i :: 0 <= i < |Run(mos, delay, inputs).out| ==> Run(mos, delay, inputs).out[i].due <= Submits(inputs)
  {
    if inputs == [] {
      StartConsistent(mos, delay);
    } else {
      var before, last := inputs[..|inputs| - 1], inputs[|inputs| - 1];
      LeftWhenDue(mos, delay, before);
      NothingLeavesEarly(mos, delay, before, last.planned);
      RunSnoc(mos, delay, before, last);
      assert inputs == before + [last];
    }
  }

  /** A receipt is due the delay after its submit, in 64 bits, a message at its configured tick. */
  predicate Dated(mos: seq<nat>, delay: nat, e: Ev) {
    match e.payload
    case Receipt(t) => e.due == (t + delay) % TWO_64
    case MobileOriginated(i) => i < |mos| && e.due == mos[i]
  }

  predicate AllDated(mos: seq<nat>, delay: nat, es: seq<Ev>) {
    forall i :: 0 <= i < |es| ==> Dated(mos, delay, es[i])
  }

  lemma {:induction false} PlaceDated(mos: seq<nat>, delay: nat, out: seq<Ev>, es: seq<Ev>, e: Ev)
    requires AllDated(mos, delay, out + es) && Dated(mos, delay, e)
    ensures AllDated(mos, delay, out + Place(es, e))
  {
    var r := Place(es, e);
    PlaceHolds(es, e);
    forall i | 0 <= i < |out + r| ensures Dated(mos, delay, (out + r)[i]) {
      if i < |out| {
        assert (out + es)[i] == out[i];
      } else {
        assert r[i - |out|] in r;
        if r[i - |out|] != e {
          var k :| 0 <= k < |es| && es[k] == r[i - |out|];
          assert (out + es)[|out| + k] == es[k];
        }
      }
    }
  }

  lemma {:induction false} RunDated(mos: seq<nat>, delay: nat, inputs: seq<Input>)
    ensures AllDated(mos, delay, All(Run(mos, delay, inputs)))
  {
    if inputs == [] {
      StartConsistent(mos, delay);
      forall i | 0 <= i < |Start(mos).pending| ensures Dated(mos, delay, Start(mos).pending[i]) {
        assert Configured(mos, Start(mos).pending[i]);
      }
    } else {
      var before, last := inputs[..|inputs| - 1], inputs[|inputs| - 1];
      RunDated(mos, delay, before);
      StepDated(mos, delay, Run(mos, delay, before), last);
    }
  }

  lemma {:induction false} StepDated(mos: seq<nat>, delay: nat, s: State, i: Input)
    requires AllDated(mos, delay, All(s))
    ensures AllDated(mos, delay, All(Step(s, delay, i)))
  {
    if i.Submit? {
      if i.planned {
        var t := s.(clock := s.clock + 1);
        PlaceDated(mos, delay, s.out, s.pending, Event(DueTick(t.clock, delay), t.seqno, Receipt(t.clock)));
      }
      DrainMoves(Advanced(s, delay, i.planned));
    }
  }

  lemma {:induction false} ReceiptAt(es: seq<Ev>, t: nat) returns (i: nat)
    requires t in ReceiptsOf(es)
    ensures i < |es| && es[i].payload == Receipt(t)
  {
    if t in TickOf(es[0]) {
      i := 0;
    } else {
      i := ReceiptAt(es[1..], t);
      i := i + 1;
    }
  }

  lemma {:induction false} MessageAt(es: seq<Ev>, m: nat) returns (i: nat)
    requires m in MessagesOf(es)
    ensures i < |es| && es[i].payload == MobileOriginated(m)
  {
    if m in IndexOf(es[0]) {
      i := 0;
    } else {
      i := MessageAt(es[1..], m);
      i := i + 1;
    }
  }

  /** At clock `n`: what has left is due, what waits is not. */
  predicate Punctual(mos: seq<nat>, delay: nat, s: State, n: nat) {
    && AllDated(mos, delay, s.out) && (forall i :: 0 <= i < |s.out| ==> s.out[i].due <= n)
    && AllDated(mos, delay, s.pending) && (forall i :: 0 <= i < |s.pending| ==> s.pending[i].due > n)
  }

  lemma {:induction false} BusyIsPunctual(mos: seq<nat>, delay: nat, inputs: seq<Input>)
    requires inputs != [] && Busy(inputs)
    ensures Punctual(mos, delay, Run(mos, delay, inputs), Submits(inputs))
  {
    var s := Run(mos, delay, inputs);
    LeftWhenDue(mos, delay, inputs);
    RunDated(mos, delay, inputs);
    forall i | 0 <= i < |s.out| ensures Dated(mos, delay, s.out[i]) {
      assert All(s)[i] == s.out[i];
    }
    forall i | 0 <= i < |s.pending| ensures Dated(mos, delay, s.pending[i]) && s.pending[i].due > Submits(inputs) {
      assert All(s)[|s.out| + i] == s.pending[i];
      NothingDueWaits(mos, delay, inputs, i);
    }
  }

  lemma {:induction false} ReceiptsPunctual(mos: seq<nat>, delay: nat, s: State, n: nat, planned: seq<nat>, t: nat)
    requires Punctual(mos, delay, s, n) && (t in planned <==> t in ReceiptsOf(s.out) || t in ReceiptsOf(s.pending))
    ensures t in ReceiptsOf(s.out) <==> t in planned && (t + delay) % TWO_64 <= n
  {
    if t in ReceiptsOf(s.out) {
      var i := ReceiptAt(s.out, t);
      assert Dated(mos, delay, s.out[i]);
    } else if t in ReceiptsOf(s.pending) {
      var i := ReceiptAt(s.pending, t);
      assert Dated(mos, delay, s.pending[i]);
    }
  }

  lemma {:induction false} MessagesPunctual(mos: seq<nat>, delay: nat, s: State, n: nat, m: nat)
    requires Punctual(mos, delay, s, n) && (m < |mos| <==> m in MessagesOf(s.out) || m in MessagesOf(s.pending))
    ensures m in MessagesOf(s.out) <==> m < |mos| && mos[m] <= n
  {
    if m in MessagesOf(s.out) {
      var i := MessageAt(s.out, m);
      assert Dated(mos, delay, s.out[i]);
    } else if m in MessagesOf(s.pending) {
      var i := MessageAt(s.pending, m);
      assert Dated(mos, delay, s.pending[i]);
    }
  }

  lemma {:induction false} UptoHolds(n: nat, m: nat)
    ensures m in Upto(n) <==> m < n
  {
    if n > 0 {
      UptoHolds(n - 1, m);
    }
  }

  lemma {:induction false} EitherHolds(a: seq<nat>, b: seq<nat>, c: seq<nat>, x: nat)
    requires multiset(a + b) == multiset(c)
    ensures x in c <==> x in a || x in b
  {
    assert x in c <==> x in multiset(c);
    assert x in a + b <==> x in multiset(a + b);
  }

  /**
    On a bind that is never silent a receipt has left exactly when it was planned and its submit's
    tick plus the delay, in 64 bits, has been reached; a message exactly when its tick has been.
  */
  lemma {:induction false} LeavesExactlyWhenDue(mos: seq<nat>, delay: nat, inputs: seq<Input>, t: nat)
    requires inputs != [] && Busy(inputs)
    ensures
      var out := Run(mos, delay, inputs).out;
      && (t in ReceiptsOf(out) <==> t in PlannedReceipts(inputs) && (t + delay) % TWO_64 <= Submits(inputs))
      && (t in MessagesOf(out) <==> t < |mos| && mos[t] <= Submits(inputs))
  {
    BusyIsPunctual(mos, delay, inputs);
    EmittedThenPendingIsPlanned(mos, delay, inputs);
    var s := Run(mos, delay, inputs);
    EitherHolds(ReceiptsOf(s.out), ReceiptsOf(s.pending), PlannedReceipts(inputs), t);
    ReceiptsPunctual(mos, delay, s, Submits(inputs), PlannedReceipts(inputs), t);
    EitherHolds(MessagesOf(s.out), MessagesOf(s.pending), Upto(|mos|), t);
    UptoHolds(|mos|, t);
    MessagesPunctual(mos, delay, s, Submits(inputs), t);
  }

  // ----- exactly when submit order survives -----

  /** What left the bind, then what waits, is the receipts in submit order. */
  predicate InSubmitOrder(mos: seq<nat>, delay: nat, inputs: seq<Input>) {
    var s := Run(mos, delay, inputs);
    ReceiptsOf(s.out) + ReceiptsOf(s.pending) == PlannedReceipts(inputs)
  }

  function Successes(n: nat): seq<Input> {
    if n == 0 then [] else Successes(n - 1) + [Submit(true)]
  }

  lemma {:induction false} SuccessesCount(n: nat)
    ensures Submits(Successes(n)) == n
  {
    if n > 0 {
      SuccessesCount(n - 1);
      assert Successes(n)[..|Successes(n)| - 1] == Successes(n - 1);
    }
  }

  lemma {:induction false} RunSnoc(mos: seq<nat>, delay: nat, inputs: seq<Input>, i: Input)
    ensures Run(mos, delay, inputs + [i]) == Step(Run(mos, delay, inputs), delay, i)
    ensures Submits(inputs + [i]) == Submits(inputs) + (if i.Submit? then 1 else 0)
    ensures PlannedReceipts(inputs + [i]) ==
            PlannedReceipts(inputs) + PlannedBy(i, Submits(inputs))
  {
    assert (inputs + [i])[..|inputs|] == inputs;
  }

  /** The two submits around the wrap, on a bind with nothing pending: the second receipt is due first. */
  lemma {:induction false} WrapSwaps(s: State, delay: nat)
    requires s.pending == [] && 1 <= delay < TWO_64 && s.clock + 1 + delay == TWO_64 - 1
    ensures
      var s' := Step(Step(s, delay, Submit(true)), delay, Submit(true));
      ReceiptsOf(All(s')) == ReceiptsOf(s.out) + [s.clock + 2, s.clock + 1]
  {
    var k := s.clock + 1;
    var first, second := Event(TWO_64 - 1, s.seqno, Receipt(k)), Event(0, s.seqno + 1, Receipt(k + 1));
    var one := Step(s, delay, Submit(true));
    assert one == State([first], s.seqno + 1, k, s.out);
    var both := Enqueue(one.(clock := k + 1), 0, Receipt(k + 1));
    assert DueTick(k + 1, delay) == 0;
    assert both.pending == [second, first];
    DrainMoves(both);
    ReceiptsSplit(s.out, [second, first]);
    assert [second, first][1..] == [first] && [first][1..] == [];
    assert ReceiptsOf([first]) == [k] + ReceiptsOf([]);
    assert Step(one, delay, Submit(true)) == Drain(both);
    DueExact(both.pending, both.clock);
  }

  lemma {:induction false} PlansTwo(calm: seq<Input>, k: nat)
    requires 1 <= k && Submits(calm) == k - 1
    ensures PlannedReceipts(calm + [Submit(true)] + [Submit(true)]) == PlannedReceipts(calm) + [k] + [k + 1]
    ensures Submits(calm + [Submit(true)] + [Submit(true)]) == k + 1
  {
    var one, two := calm + [Submit(true)], calm + [Submit(true)] + [Submit(true)];
    assert one[..|one| - 1] == calm && two[..|two| - 1] == one;
  }

  lemma {:induction false} LastsDiffer(a: seq<nat>, b: seq<nat>, x: nat, y: nat)
    requires x != y
    ensures a + [x] != b + [y]
  {
    assert (a + [x])[|a + [x]| - 1] == x;
    assert (b + [y])[|b + [y]| - 1] == y;
  }

  lemma {:induction false} EndsMisordered(e: State, out: seq<nat>, planned: seq<nat>, k: nat)
    requires ReceiptsOf(All(e)) == out + [k + 1, k]
    ensures ReceiptsOf(e.out) + ReceiptsOf(e.pending) != planned + [k] + [k + 1]
  {
    ReceiptsSplit(e.out, e.pending);
    assert out + [k + 1, k] == out + [k + 1] + [k];
    LastsDiffer(out + [k + 1], planned + [k], k, k + 1);
  }

  lemma {:induction false} RunsTwo(delay: nat, calm: seq<Input>)
    ensures Run([], delay, calm + [Submit(true)] + [Submit(true)])
            == Step(Step(Run([], delay, calm), delay, Submit(true)), delay, Submit(true))
  {
    RunSnoc([], delay, calm, Submit(true));
    RunSnoc([], delay, calm + [Submit(true)], Submit(true));
  }

  /** Two successes at the wrap, behind a run that has emitted everything: the second receipt overtakes the first. */
  lemma {:induction false} WrapOvertakes(delay: nat, calm: seq<Input>, k: nat)
    requires 1 <= delay < TWO_64 && k + delay == TWO_64 - 1 && 1 <= k
    requires Run([], delay, calm).pending == [] && Run([], delay, calm).clock == k - 1
    ensures ReceiptsOf(All(Run([], delay, calm + [Submit(true)] + [Submit(true)]))) == ReceiptsOf(Run([], delay, calm).out) + [k + 1, k]
  {
    RunsTwo(delay, calm);
    WrapSwaps(Run([], delay, calm), delay);
  }

  lemma {:induction false} OvertakenMisorders(delay: nat, two: seq<Input>, out: seq<nat>, planned: seq<nat>, k: nat)
    requires ReceiptsOf(All(Run([], delay, two))) == out + [k + 1, k]
    requires PlannedReceipts(two) == planned + [k] + [k + 1]
    ensures !InSubmitOrder([], delay, two)
  {
    EndsMisordered(Run([], delay, two), out, planned, k);
  }

  /** `n` successes, then a silence: everything has been emitted. */
  lemma {:induction false} Quieted(delay: nat, n: nat)
    ensures
      var quiet := Successes(n) + [Flush];
      Submits(quiet) == n && Run([], delay, quiet).pending == [] && Run([], delay, quiet).clock == n
  {
    SuccessesCount(n);
    RunKept([], delay, Successes(n));
    RunSnoc([], delay, Successes(n), Flush);
  }

  lemma {:induction false} WrapBreaksOrder(delay: nat, n: nat) returns (inputs: seq<Input>)
    requires 1 <= delay < TWO_64 && n < TWO_64 && !NoWrapWithin(delay, n)
    ensures Submits(inputs) <= n && !InSubmitOrder([], delay, inputs)
  {
    var k := TWO_64 - 1 - delay;
    var quiet := Successes(k - 1) + [Flush];
    Quieted(delay, k - 1);
    PlansTwo(quiet, k);
    WrapOvertakes(delay, quiet, k);
    inputs := quiet + [Submit(true)] + [Submit(true)];
    OvertakenMisorders(delay, inputs, ReceiptsOf(Run([], delay, quiet).out), PlannedReceipts(quiet), k);
  }

  /**
    Over n submits receipts leave in submit order, wherever drains and flushes fall, exactly when
    clock plus delay does not pass the end of the tick range between two of those submits.
  */
  lemma {:induction false} SubmitOrderIffNoWrap(delay: nat, n: nat)
    requires 1 <= delay < TWO_64 && n < TWO_64
    ensures (forall mos, inputs :: Submits(inputs) <= n ==> InSubmitOrder(mos, delay, inputs)) <==> NoWrapWithin(delay, n)
  {
    if NoWrapWithin(delay, n) {
      forall mos, inputs | Submits(inputs) <= n ensures InSubmitOrder(mos, delay, inputs) {
        ReceiptsLeaveInSubmitOrder(mos, delay, inputs);
      }
    } else {
      var inputs := WrapBreaksOrder(delay, n);
      assert !InSubmitOrder([], delay, inputs);
    }
  }
}
