/** The per-bind schedule: pending events in (due tick, insertion) order, drained by the clock or by a flush. */
module Schedule {

  datatype Event<+P> = Event(due: nat, seqno: nat, payload: P)

  /** Drain order. */
  predicate Before<P>(a: Event<P>, b: Event<P>) {
    a.due < b.due || (a.due == b.due && a.seqno < b.seqno)
  }

  predicate Sorted<P>(es: seq<Event<P>>) {
    forall i, j :: 0 <= i < j < |es| ==> Before(es[i], es[j])
  }

  /** Inserts `e` in front of the first event it precedes. */
  function Place<P>(es: seq<Event<P>>, e: Event<P>): (r: seq<Event<P>>)
    ensures |r| == |es| + 1
  {
    if es == [] || Before(e, es[0]) then [e] + es else [es[0]] + Place(es[1..], e)
  }

  /** The events the clock has reached, given that `es` is sorted: a prefix. */
  function Due<P>(es: seq<Event<P>>, clock: nat): (r: seq<Event<P>>)
    ensures |r| <= |es|
  {
    if es == [] || es[0].due > clock then [] else [es[0]] + Due(es[1..], clock)
  }

  lemma {:induction false} DueIsPrefix<P>(es: seq<Event<P>>, clock: nat)
    ensures Due(es, clock) <= es
  {
    if es != [] && es[0].due <= clock {
      DueIsPrefix(es[1..], clock);
      assert es == [es[0]] + es[1..];
    }
  }

  lemma {:induction false} DueAt<P>(es: seq<Event<P>>, clock: nat, n: nat)
    requires n <= |es|
    requires forall i :: 0 <= i < n ==> es[i].due <= clock
    requires n < |es| ==> es[n].due > clock
    ensures Due(es, clock) == es[..n]
  {
    if n > 0 {
      DueAt(es[1..], clock, n - 1);
      assert es[..n] == [es[0]] + es[1..][..n - 1];
    }
  }

  lemma {:induction false} SplicedBehind<P>(es: seq<Event<P>>, e: Event<P>, i: nat)
    requires 0 < i <= |es|
    ensures [es[0]] + (es[1..][..i - 1] + [e] + es[1..][i - 1..]) == es[..i] + [e] + es[i..]
  {
    assert es[..i] == [es[0]] + es[1..][..i - 1] && es[1..][i - 1..] == es[i..];
  }

  lemma {:induction false} PlaceAt<P>(es: seq<Event<P>>, e: Event<P>, i: nat)
    requires i <= |es|
    requires forall k :: 0 <= k < i ==> !Before(e, es[k])
    requires i < |es| ==> Before(e, es[i])
    ensures Place(es, e) == es[..i] + [e] + es[i..]
  {
    if i == 0 {
      assert es[..0] == [] && es[0..] == es;
    } else {
      assert !Before(e, es[0]);
      PlaceAt(es[1..], e, i - 1);
      SplicedBehind(es, e, i);
    }
  }

  lemma {:induction false} PlaceHolds<P>(es: seq<Event<P>>, e: Event<P>)
    ensures multiset(Place(es, e)) == multiset(es) + multiset{e}
    ensures forall x :: x in Place(es, e) <==> x == e || x in es
  {
    if es != [] && !Before(e, es[0]) {
      PlaceHolds(es[1..], e);
      assert es == [es[0]] + es[1..];
    }
  }

  lemma {:induction false} PlaceSorted<P>(es: seq<Event<P>>, e: Event<P>)
    requires Sorted(es) && forall i :: 0 <= i < |es| ==> es[i].seqno != e.seqno
    ensures Sorted(Place(es, e))
    ensures forall x :: x in Place(es, e) <==> x == e || x in es
  {
    PlaceHolds(es, e);
    if es != [] && !Before(e, es[0]) {
      var r := Place(es[1..], e);
      PlaceSorted(es[1..], e);
      PlaceHolds(es[1..], e);
      forall j | 0 <= j < |r| ensures Before(es[0], r[j]) {
        assert r[j] in Place(es[1..], e);
        if r[j] == e {
          assert es[0].seqno != e.seqno;
        } else {
          assert r[j] in multiset(r) && multiset(r) == multiset(es[1..]) + multiset{e};
          assert r[j] in multiset(es[1..]);
          assert r[j] in es[1..];
          var k :| 0 <= k < |es[1..]| && es[1..][k] == r[j];
          assert Before(es[0], es[k + 1]);
        }
      }
    }
  }

  /** What a drain releases: exactly the due events, in order, and nothing is lost. */
  lemma {:induction false} DueExact<P>(es: seq<Event<P>>, clock: nat)
    requires Sorted(es)
    ensures
      var d := Due(es, clock);
      && d <= es
      && (forall i :: 0 <= i < |d| ==> d[i].due <= clock)
      && (forall i :: |d| <= i < |es| ==> es[i].due > clock)
  {
    DueIsPrefix(es, clock);
    if es != [] && es[0].due <= clock {
      DueExact(es[1..], clock);
      var d := Due(es[1..], clock);
      forall i | |d| + 1 <= i < |es| ensures es[i].due > clock {
        assert es[i] == es[1..][i - 1];
      }
    } else if es != [] {
      forall i | 0 <= i < |es| ensures es[i].due > clock {
        assert i > 0 ==> Before(es[0], es[i]);
      }
    }
  }

  class Runner<P> {
    var pending: seq<Event<P>>
    var seqno: nat

    ghost predicate Valid()
      reads this
    {
      Sorted(pending) && forall i :: 0 <= i < |pending| ==> pending[i].seqno < seqno
    }

    constructor ()
      ensures Valid() && pending == [] && seqno == 0
    {
      pending, seqno := [], 0;
    }

    method Schedule(due: nat, payload: P)
      requires Valid()
      modifies this
      ensures Valid()
      ensures pending == Place(old(pending), Event(due, old(seqno), payload))
      ensures seqno == old(seqno) + 1
    {
      var e := Event(due, seqno, payload);
      seqno := seqno + 1;
      var lo, hi := 0, |pending|;
      while lo < hi
        invariant 0 <= lo <= hi <= |pending| && pending == old(pending)
        invariant forall k :: 0 <= k < lo ==> !Before(e, pending[k])
        invariant forall k :: hi <= k < |pending| ==> Before(e, pending[k])
      {
        var mid := (lo + hi) / 2;
        var p := pending[mid];
        if p.due > e.due || (p.due == e.due && p.seqno > e.seqno) {
          hi := mid;
        } else {
          lo := mid + 1;
        }
      }
      PlaceAt(pending, e, lo);
      PlaceSorted(pending, e);
      pending := pending[..lo] + [e] + pending[lo..];
      assert forall i :: 0 <= i < |pending| ==> pending[i] in pending;
    }

    method DrainDue(clock: nat) returns (due: seq<Event<P>>)
      requires Valid()
      modifies this
      ensures Valid()
      ensures due == Due(old(pending), clock) && due + pending == old(pending) && seqno == old(seqno)
      ensures forall i :: 0 <= i < |pending| ==> pending[i].due > clock
    {
      var lo, hi := 0, |pending|;
      while lo < hi
        invariant 0 <= lo <= hi <= |pending|
        invariant forall k :: 0 <= k < lo ==> pending[k].due <= clock
        invariant forall k :: hi <= k < |pending| ==> pending[k].due > clock
      {
        var mid := (lo + hi) / 2;
        if pending[mid].due > clock {
          hi := mid;
        } else {
          lo := mid + 1;
        }
      }
      DueAt(pending, clock, lo);
      due := pending[..lo];
      pending := pending[lo..];
    }

    method DrainAll() returns (all: seq<Event<P>>)
      requires Valid()
      modifies this
      ensures Valid() && all == old(pending) && pending == [] && seqno == old(seqno)
    {
      all := pending;
      pending := [];
    }

    /** How many events are still pending. */
    function Len(): nat
      reads this
    {
      |pending|
    }
  }
}
