/**
  The read deadline of one connection and who sets it: the read loop before every frame and at a frame's
  first octets, the closer once the engine shuts down, each in a step of its own. Time appears only as
  "the deadline passes"; handling a PDU or a flush is one step here, its own sends are the session's.
*/
module ReadDeadline {
  import opened Wrappers
  import Smpp

  /** The octets of command_length, read before anything else of a frame. */
  const LENGTH_OCTETS: nat := 4

  /** Whether the deadline set last has passed. */
  datatype Deadline = Past | Later

  /** Where the read loop stands; `got` octets of a frame have arrived and the current read wants `need` in all. */
  datatype Reader =
    | Arming
    | Armed
    | Reading(got: nat, need: nat)
    | Extending(got: nat, need: nat)
    | Extended(got: nat, need: nat)
    | PushingBack(got: nat, need: nat)
    | TimedOut
    | Handling
    | Ended

  /** `closer` says that the closer has set its past deadline. */
  datatype State = State(reader: Reader, deadline: Deadline, quit: bool, closer: bool)

  const INIT := State(Arming, Later, false, false)

  /** Steps of the engine, of time, of the peer, of the closer, and of the read loop. */
  datatype Action =
    | Quit
    | TimePasses
    | Octets(n: nat)
    | PeerEnds
    | CloserSets
    | Arm(deadline: Deadline)
    | Look
    | Length(length: nat)
    | WholeFrame
    | Expires
    | Extend
    | Recheck
    | PushBack
    | SeeTimeout(idle: bool)
    | Handled(closed: bool)

  predicate InRead(s: State) {
    s.reader.Reading? && s.reader.got < s.reader.need
  }

  function StepTo(s: State, a: Action): Option<State> {
    match a
    case Quit => if s.quit then None else Some(s.(quit := true))
    case TimePasses => if s.deadline.Later? then Some(s.(deadline := Past)) else None
    case Octets(n) =>
      if InRead(s) && s.deadline.Later? && 1 <= n <= s.reader.need - s.reader.got then
        var got := s.reader.got + n;
        Some(s.(reader := if s.reader.got == 0 then Extending(got, s.reader.need) else Reading(got, s.reader.need)))
      else None
    case PeerEnds => if InRead(s) then Some(s.(reader := Ended)) else None
    case CloserSets => if s.quit && !s.closer then Some(s.(deadline := Past, closer := true)) else None
    case Arm(d) => if s.reader.Arming? then Some(s.(reader := Armed, deadline := d)) else None
    case Look => if s.reader.Armed? then Some(s.(reader := if s.quit then Ended else Reading(0, LENGTH_OCTETS))) else None
    case Length(l) =>
      if s.reader == Reading(LENGTH_OCTETS, LENGTH_OCTETS)
      then Some(s.(reader := if Smpp.HEADER_LEN <= l <= Smpp.MAX_PDU_LEN then Reading(LENGTH_OCTETS, l) else Ended)) else None
    case WholeFrame =>
      if s.reader.Reading? && s.reader.got == s.reader.need != LENGTH_OCTETS then Some(s.(reader := Handling)) else None
    case Expires =>
      if InRead(s) && s.deadline.Past? then Some(s.(reader := if s.reader.got == 0 then TimedOut else Ended)) else None
    case Extend =>
      if s.reader.Extending? then Some(s.(reader := Extended(s.reader.got, s.reader.need), deadline := Later)) else None
    case Recheck =>
      if s.reader.Extended?
      then Some(s.(reader := if s.quit then PushingBack(s.reader.got, s.reader.need) else Reading(s.reader.got, s.reader.need))) else None
    case PushBack =>
      if s.reader.PushingBack? then Some(s.(reader := Reading(s.reader.got, s.reader.need), deadline := Past)) else None
    case SeeTimeout(idle) =>
      if s.reader.TimedOut? then Some(s.(reader := if s.quit || idle then Ended else Handling)) else None
    case Handled(closed) => if s.reader.Handling? then Some(s.(reader := if closed then Ended else Arming)) else None
  }

  /** The state after the actions, or None if one of them cannot happen. */
  function RunFrom(s: State, acts: seq<Action>): Option<State>
    decreases |acts|
  {
    if acts == [] then Some(s) else
    var t := StepTo(s, acts[0]);
    if t.None? then None else RunFrom(t.value, acts[1..])
  }

  predicate Reachable(s: State, acts: seq<Action>) {
    RunFrom(INIT, acts) == Some(s)
  }

  // ----- what every step keeps -----

  predicate Fits(r: Reader) {
    r.Reading? || r.Extending? || r.Extended? || r.PushingBack? ==>
      && r.got <= r.need && (r.need == LENGTH_OCTETS || (LENGTH_OCTETS <= r.got && r.need <= Smpp.MAX_PDU_LEN))
      && (r.Reading? || 1 <= r.got)
  }

  /** Once the closer has set its past deadline, no read waits under a later one. */
  predicate Inv(s: State) {
    && Fits(s.reader) && (s.closer ==> s.quit)
    && (s.closer && s.reader.Reading? ==> s.deadline.Past?)
  }

  lemma {:induction false} StepInv(s: State, a: Action)
    requires Inv(s) && StepTo(s, a).Some?
    ensures Inv(StepTo(s, a).value)
  {
  }

  lemma {:induction false} RunInv(s: State, acts: seq<Action>)
    requires Inv(s) && RunFrom(s, acts).Some?
    ensures Inv(RunFrom(s, acts).value)
    decreases |acts|
  {
    if acts != [] {
      StepInv(s, acts[0]);
      RunInv(StepTo(s, acts[0]).value, acts[1..]);
    }
  }

  /**
    Whichever of the closer's past deadline, the loop's re-arming and a frame's extension came first: once
    the engine shuts down and the closer has set its deadline, no reachable state has the read loop
    blocked under a later one.
  */
  lemma {:induction false} NeverBlockedLater(s: State, acts: seq<Action>)
    requires Reachable(s, acts) && s.closer && InRead(s)
    ensures s.quit && s.deadline.Past?
  {
    RunInv(INIT, acts);
  }

  // ----- after a shutdown the read loop ends -----

  /** The octets a peer can still deliver to the frame being read. */
  function Missing(r: Reader): int
    requires r.Reading? || r.Extending? || r.Extended? || r.PushingBack?
  {
    r.need - r.got + if r.need == LENGTH_OCTETS then Smpp.MAX_PDU_LEN + 1 else 0
  }

  function Rank(r: Reader): int {
    match r
    case Ended => 0
    case Armed => 1
    case TimedOut => 1
    case Arming => 4
    case Handling => 5
    case Reading(got, _) => 6 + Missing(r) + if got == 0 then 10 else 0
    case PushingBack(_, _) => 7 + Missing(r)
    case Extended(_, _) => 8 + Missing(r)
    case Extending(_, _) => 10 + Missing(r)
  }

  /** A bound on all the steps left, whoever takes them, once the engine has shut down. */
  function Left(s: State): int {
    Rank(s.reader) + (if s.deadline.Later? then 1 else 0) + if s.closer then 0 else 1
  }

  lemma {:induction false} LeftDrops(s: State, a: Action)
    requires Inv(s) && s.quit && StepTo(s, a).Some?
    ensures 0 <= Left(StepTo(s, a).value) < Left(s) && StepTo(s, a).value.quit
  {
  }

  /** After a shutdown a run has at most Left more steps, those of the peer and of time included. */
  lemma {:induction false} ShutdownBoundsRun(s: State, acts: seq<Action>)
    requires Inv(s) && s.quit && RunFrom(s, acts).Some?
    ensures |acts| <= Left(s)
    decreases |acts|
  {
    if acts != [] {
      LeftDrops(s, acts[0]);
      StepInv(s, acts[0]);
      ShutdownBoundsRun(StepTo(s, acts[0]).value, acts[1..]);
    }
  }

  /** A step the engine's own goroutines take, not the peer and not the passing of time. */
  predicate OwnStep(a: Action) {
    !a.Quit? && !a.TimePasses? && !a.Octets? && !a.PeerEnds? && !a.Length?
  }

  /** After a shutdown the read loop is never stuck: it or the closer can step, or the length it waits to judge has arrived. */
  lemma {:induction false} ShutdownCanStep(s: State, length: nat) returns (a: Action)
    requires Inv(s) && s.quit && !s.reader.Ended?
    ensures StepTo(s, a).Some? && (OwnStep(a) || a == Length(length))
  {
    match s.reader
    case Arming => a := Arm(Later);
    case Armed => a := Look;
    case Reading(got, need) =>
      if got == need {
        a := if need == LENGTH_OCTETS then Length(length) else WholeFrame;
      } else if s.deadline.Past? {
        a := Expires;
      } else {
        a := CloserSets;
      }
    case Extending(_, _) => a := Extend;
    case Extended(_, _) => a := Recheck;
    case PushingBack(_, _) => a := PushBack;
    case TimedOut => a := SeeTimeout(false);
    case Handling => a := Handled(false);
  }

  /** With nothing more from the peer than a length already sent, the read loop ends. */
  lemma {:induction false} ShutdownEndsReading(s: State, length: nat) returns (acts: seq<Action>)
    requires Inv(s) && s.quit
    ensures RunFrom(s, acts).Some? && RunFrom(s, acts).value.reader.Ended?
    ensures forall i :: 0 <= i < |acts| ==> OwnStep(acts[i]) || acts[i] == Length(length)
    decreases Left(s)
  {
    if s.reader.Ended? {
      acts := [];
    } else {
      var a := ShutdownCanStep(s, length);
      LeftDrops(s, a);
      StepInv(s, a);
      var rest := ShutdownEndsReading(StepTo(s, a).value, length);
      acts := [a] + rest;
      assert acts[1..] == rest;
    }
  }

  /**
    A shutdown always ends the read loop: from any reachable state with quit closed every run is
    bounded, and one of the engine's own steps leads on until the loop has ended, whatever the peer does.
  */
  lemma {:induction false} ShutdownEnds(s: State, before: seq<Action>, acts: seq<Action>, length: nat)
    requires Reachable(s, before) && s.quit && RunFrom(s, acts).Some?
    ensures |acts| <= Left(s)
    ensures
      var t := RunFrom(s, acts).value;
      t.reader.Ended? || exists a :: StepTo(t, a).Some? && (OwnStep(a) || a == Length(length))
  {
    RunInv(INIT, before);
    RunInv(s, acts);
    ShutdownBoundsRun(s, acts);
    QuitStays(s, acts);
    if !RunFrom(s, acts).value.reader.Ended? {
      var a := ShutdownCanStep(RunFrom(s, acts).value, length);
      assert StepTo(RunFrom(s, acts).value, a).Some?;
    }
  }

  lemma {:induction false} QuitStays(s: State, acts: seq<Action>)
    requires s.quit && RunFrom(s, acts).Some?
    ensures RunFrom(s, acts).value.quit
    decreases |acts|
  {
    if acts != [] {
      QuitStays(StepTo(s, acts[0]).value, acts[1..]);
    }
  }

  lemma {:induction false} Prepended(s: State, a: Action, t: State, rest: seq<Action>) returns (acts: seq<Action>)
    requires StepTo(s, a) == Some(t) && RunFrom(t, rest).Some?
    ensures RunFrom(s, acts) == RunFrom(t, rest)
  {
    acts := [a] + rest;
    assert acts[1..] == rest;
  }

  /** The re-check is needed: the extension of a frame just begun can replace the closer's deadline by a later one. */
  lemma {:induction false} ExtensionReplacesDeadline() returns (s: State, acts: seq<Action>)
    ensures Reachable(s, acts) && s.closer && s.deadline.Later? && s.reader.Extended?
  {
    var extending := State(Extending(1, LENGTH_OCTETS), Later, false, false);
    var reading, armed := extending.(reader := Reading(0, LENGTH_OCTETS)), extending.(reader := Armed);
    var closed := extending.(deadline := Past, quit := true, closer := true);
    s := closed.(reader := Extended(1, LENGTH_OCTETS), deadline := Later);
    acts := [];
    acts := Prepended(closed, Extend, s, acts);
    acts := Prepended(extending.(quit := true), CloserSets, closed, acts);
    acts := Prepended(extending, Quit, extending.(quit := true), acts);
    acts := Prepended(reading, Octets(1), extending, acts);
    acts := Prepended(armed, Look, reading, acts);
    acts := Prepended(INIT, Arm(Later), armed, acts);
  }
}
