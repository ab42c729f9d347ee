/** The bounded journal of received submits: a ring that behaves as a suffix of an unbounded log. */
module Recorder {
  import opened Wrappers

  datatype Record = Record(
    index: nat, messageId: bytes,
    sourceAddr: bytes, sourceTon: int, sourceNpi: int,
    destAddr: bytes, destTon: int, destNpi: int,
    dataCoding: int, shortMessage: bytes, perBindClock: nat)

  /** An empty address matches any; a non-positive limit returns every match. `since` bounds the index. */
  datatype Filter = Filter(sourceAddr: bytes, destAddr: bytes, since: nat, limit: int)

  predicate Matches(f: Filter, r: Record) {
    (f.sourceAddr == [] || r.sourceAddr == f.sourceAddr) && (f.destAddr == [] || r.destAddr == f.destAddr)
  }

  // ----- the unbounded log -----

  predicate Indexed(log: seq<Record>) {
    forall i :: 0 <= i < |log| ==> log[i].index == i
  }

  /** The first index still retained after `total` appends. */
  function Oldest(total: nat, cap: nat): nat {
    if total > cap then total - cap else 0
  }

  function Start(log: seq<Record>, cap: nat, f: Filter): nat {
    var oldest := Oldest(|log|, cap);
    if oldest < f.since then f.since else oldest
  }

  /** The matching records from index `i` on, in order. */
  function Select(log: seq<Record>, f: Filter, i: nat): seq<Record>
    decreases |log| - i
  {
    if i >= |log| then []
    else (if Matches(f, log[i]) then [log[i]] else []) + Select(log, f, i + 1)
  }

  function Limited(rs: seq<Record>, limit: int): seq<Record> {
    if 0 < limit < |rs| then rs[..limit] else rs
  }

  /** What a snapshot of the log's last `cap` entries should be. */
  function SnapshotOf(log: seq<Record>, cap: nat, f: Filter): seq<Record> {
    Limited(Select(log, f, Start(log, cap, f)), f.limit)
  }

  predicate Ascending(s: seq<Record>) {
    forall k, l :: 0 <= k < l < |s| ==> s[k].index < s[l].index
  }

  /** Every record of `s` is a match of the log at or after `i`. */
  predicate FromLog(log: seq<Record>, f: Filter, i: nat, s: seq<Record>) {
    forall k :: 0 <= k < |s| ==> i <= s[k].index < |log| && s[k] == log[s[k].index] && Matches(f, s[k])
  }

  lemma {:induction false} SelectSound(log: seq<Record>, f: Filter, i: nat)
    requires Indexed(log)
    ensures FromLog(log, f, i, Select(log, f, i)) && Ascending(Select(log, f, i))
    decreases |log| - i
  {
    if i < |log| {
      SelectSound(log, f, i + 1);
      var rest := Select(log, f, i + 1);
      if Matches(f, log[i]) {
        var s := [log[i]] + rest;
        forall k | 0 <= k < |s| ensures i <= s[k].index < |log| && s[k] == log[s[k].index] && Matches(f, s[k]) {
          if k > 0 {
            assert s[k] == rest[k - 1];
          }
        }
      } else {
        assert Select(log, f, i) == rest;
      }
    }
  }

  lemma {:induction false} SelectComplete(log: seq<Record>, f: Filter, i: nat, j: nat)
    requires i <= j < |log| && Matches(f, log[j])
    ensures log[j] in Select(log, f, i)
    decreases j - i
  {
    if i < j {
      SelectComplete(log, f, i + 1, j);
    }
  }

  /** What follows the k-th match is the selection from just past it. */
  lemma {:induction false} SelectResume(log: seq<Record>, f: Filter, i: nat, k: nat)
    requires Indexed(log) && k < |Select(log, f, i)|
    ensures Select(log, f, Select(log, f, i)[k].index + 1) == Select(log, f, i)[k + 1..]
    decreases |log| - i
  {
    var rest, s := Select(log, f, i + 1), Select(log, f, i);
    if !Matches(f, log[i]) {
      assert s == rest;
      SelectResume(log, f, i + 1, k);
    } else {
      assert s == [log[i]] + rest;
      if k > 0 {
        SelectResume(log, f, i + 1, k - 1);
        assert s[k] == rest[k - 1] && s[k + 1..] == rest[k..];
      }
    }
  }

  lemma {:induction false} SelectIgnores(log: seq<Record>, f: Filter, g: Filter, i: nat)
    requires f.sourceAddr == g.sourceAddr && f.destAddr == g.destAddr
    ensures Select(log, f, i) == Select(log, g, i)
    decreases |log| - i
  {
    if i < |log| {
      SelectIgnores(log, f, g, i + 1);
    }
  }

  // ----- the ring -----

  /** Two indices share a slot only when they are a whole ring apart. */
  lemma {:induction false} RingSlots(i: nat, j: nat, cap: nat)
    requires i < j && cap > 0
    ensures i % cap == j % cap ==> j - i >= cap
  {
    if i % cap == j % cap {
      var turns := j / cap - i / cap;
      assert j - i == cap * turns;
      assert turns >= 1;
    }
  }

  lemma {:induction false} LimitedPrefix(out: seq<Record>, rest: seq<Record>, limit: int)
    requires 0 < limit == |out|
    ensures Limited(out + rest, limit) == out
  {
  }

  lemma {:induction false} SelectStep(log: seq<Record>, f: Filter, i: nat, out: seq<Record>)
    requires i < |log|
    ensures out + Select(log, f, i) == (if Matches(f, log[i]) then out + [log[i]] else out) + Select(log, f, i + 1)
  {
  }

  class Journal {
    const ring: array<Record>
    var total: nat
    var size: nat
    ghost var log: seq<Record>

    ghost predicate Valid()
      reads this, ring
    {
      && ring.Length > 0
      && |log| == total && Indexed(log)
      && size == (if total < ring.Length then total else ring.Length)
      && forall i :: Oldest(total, ring.Length) <= i < total ==> ring[i % ring.Length] == log[i]
    }

    constructor (capacity: int)
      ensures Valid() && log == [] && fresh(ring)
      ensures ring.Length == if capacity < 1 then 1 else capacity
    {
      ring := new Record[if capacity < 1 then 1 else capacity](_ => Record(0, [], [], 0, 0, [], 0, 0, 0, [], 0));
      total, size := 0, 0;
      log := [];
    }

    /** Appends `p` under the next index; the oldest entry gives way once the ring is full. */
    method Append(p: Record)
      requires Valid()
      modifies this, ring
      ensures Valid() && log == old(log) + [p.(index := |old(log)|)]
    {
      ghost var before := ring[..];
      var slot := total % ring.Length;
      ring[slot] := p.(index := total);
      log := log + [p.(index := total)];
      forall i | Oldest(total + 1, ring.Length) <= i < total ensures ring[i % ring.Length] == log[i] {
        RingSlots(i, total, ring.Length);
        assert ring[i % ring.Length] == before[i % ring.Length];
      }
      total := total + 1;
      if size < ring.Length {
        size := size + 1;
      }
    }

    method Snapshot(f: Filter) returns (out: seq<Record>)
      requires Valid()
      ensures out == SnapshotOf(log, ring.Length, f)
    {
      var oldest := if total > ring.Length then total - ring.Length else 0;
      var i := if oldest < f.since then f.since else oldest;
      ghost var all := Select(log, f, i);
      out := [];
      while i < total
        invariant oldest <= i
        invariant all == out + Select(log, f, i)
        invariant f.limit > 0 ==> |out| < f.limit
        decreases total - i
      {
        var rec := ring[i % ring.Length];
        assert rec == log[i];
        SelectStep(log, f, i, out);
        i := i + 1;
        if (f.sourceAddr != [] && rec.sourceAddr != f.sourceAddr) || (f.destAddr != [] && rec.destAddr != f.destAddr) {
          continue;
        }
        out := out + [rec];
        if f.limit > 0 && |out| == f.limit {
          LimitedPrefix(out, Select(log, f, i), f.limit);
          return;
        }
      }
      assert out + [] == out;
    }

    /** How many records are retained. */
    function Len(): nat
      reads this
    {
      size
    }
  }

  // ----- what a snapshot shows -----

  lemma {:induction false} SelectAll(log: seq<Record>, f: Filter, i: nat)
    requires f.sourceAddr == f.destAddr == [] && i <= |log|
    ensures Select(log, f, i) == log[i..]
    decreases |log| - i
  {
    if i < |log| {
      SelectAll(log, f, i + 1);
    }
  }

  /** Without a filter a snapshot is the last `cap` entries of the log, or all of it. */
  lemma {:induction false} UnfilteredSnapshot(log: seq<Record>, cap: nat, f: Filter)
    requires f.sourceAddr == f.destAddr == [] && f.since == 0 && f.limit <= 0
    ensures SnapshotOf(log, cap, f) == if |log| <= cap then log else log[|log| - cap..]
  {
    SelectAll(log, f, Start(log, cap, f));
  }

  /**
    A filtered snapshot shows, in log order, exactly the entries among the last `cap` from index `since` on
    whose addresses are the ones asked for; a positive limit keeps the first so many of them.
  */
  lemma {:induction false} FilteredSnapshot(log: seq<Record>, cap: nat, f: Filter, i: nat)
    requires Indexed(log) && i < |log|
    ensures
      var all := SnapshotOf(log, cap, f.(limit := 0));
      && (log[i] in all <==>
            && f.since <= i && |log| - cap <= i
            && (f.sourceAddr != [] ==> log[i].sourceAddr == f.sourceAddr)
            && (f.destAddr != [] ==> log[i].destAddr == f.destAddr))
      && (forall k :: 0 <= k < |all| ==> all[k] in log)
      && (forall k, l :: 0 <= k < l < |all| ==> all[k].index < all[l].index)
      && SnapshotOf(log, cap, f) == if 0 < f.limit < |all| then all[..f.limit] else all
  {
    var g, start := f.(limit := 0), Start(log, cap, f);
    SelectIgnores(log, f, g, start);
    SelectSound(log, g, start);
    if start <= i && Matches(f, log[i]) {
      SelectComplete(log, g, start, i);
    }
    if log[i] in Select(log, g, start) {
      var k :| 0 <= k < |Select(log, g, start)| && Select(log, g, start)[k] == log[i];
    }
  }

  // ----- paging -----

  lemma {:induction false} PageAdvances(log: seq<Record>, cap: nat, f: Filter)
    requires Indexed(log)
    ensures
      var page := SnapshotOf(log, cap, f);
      page != [] ==> f.since <= page[|page| - 1].index < |log|
  {
    SelectSound(log, f, Start(log, cap, f));
  }

  /** The next cursor: just past the last record of a page. */
  function NextSince(page: seq<Record>, since: nat): nat {
    if page == [] then since else page[|page| - 1].index + 1
  }

  function Left(log: seq<Record>, f: Filter): nat {
    if f.since < |log| then |log| - f.since else 0
  }

  /** Snapshots taken one after the other, each from just past the last record of the previous one. */
  function Pages(log: seq<Record>, cap: nat, f: Filter): seq<Record>
    requires Indexed(log) && f.limit > 0
    decreases Left(log, f)
  {
    var page := SnapshotOf(log, cap, f);
    if page == [] then [] else
    PageAdvances(log, cap, f);
    page + Pages(log, cap, f.(since := NextSince(page, f.since)))
  }

  lemma {:induction false} LimitedTakes(rs: seq<Record>, limit: int)
    ensures var page := Limited(rs, limit); |page| <= |rs| && page == rs[..|page|] && rs == page + rs[|page|..]
  {
  }

  lemma {:induction false} PageBounds(log: seq<Record>, cap: nat, f: Filter)
    requires Indexed(log) && SnapshotOf(log, cap, f) != []
    ensures var next := NextSince(SnapshotOf(log, cap, f), f.since);
            f.since < next <= |log| && Start(log, cap, f) < next
  {
    var start := Start(log, cap, f);
    var all, k := Select(log, f, start), |SnapshotOf(log, cap, f)|;
    LimitedTakes(all, f.limit);
    SelectSound(log, f, start);
    assert start <= all[k - 1].index < |log|;
  }

  /** A page and the selection from the next cursor make up the selection. */
  lemma {:induction false} PageThenRest(log: seq<Record>, cap: nat, f: Filter)
    requires Indexed(log) && SnapshotOf(log, cap, f) != []
    ensures
      var page := SnapshotOf(log, cap, f);
      Select(log, f, Start(log, cap, f)) == page + Select(log, f, NextSince(page, f.since))
  {
    var all, k := Select(log, f, Start(log, cap, f)), |SnapshotOf(log, cap, f)|;
    LimitedTakes(all, f.limit);
    SelectResume(log, f, Start(log, cap, f), k - 1);
  }

  /** Paging with any positive limit visits every retained match exactly once, in order, and ends. */
  lemma {:induction false} PagingIsComplete(log: seq<Record>, cap: nat, f: Filter)
    requires Indexed(log) && f.limit > 0
    ensures Pages(log, cap, f) == Select(log, f, Start(log, cap, f))
    decreases Left(log, f)
  {
    var page := SnapshotOf(log, cap, f);
    if page != [] {
      var g := f.(since := NextSince(page, f.since));
      PageBounds(log, cap, f);
      PageThenRest(log, cap, f);
      PagingIsComplete(log, cap, g);
      SelectIgnores(log, f, g, g.since);
    }
  }

  // ----- paging while submits keep arriving -----

  /** The n-th page is a snapshot of logs[n]; the log only grows between pages. */
  predicate Growing(logs: seq<seq<Record>>) {
    && (forall n :: 0 <= n < |logs| ==> Indexed(logs[n]))
    && (forall n, m :: 0 <= n < m < |logs| ==> logs[n] <= logs[m])
  }

  /** The records returned and the final cursor. */
  function LivePages(logs: seq<seq<Record>>, cap: nat, f: Filter): (seq<Record>, nat) {
    if logs == [] then ([], f.since) else
    var page := SnapshotOf(logs[0], cap, f);
    var rest := LivePages(logs[1..], cap, f.(since := NextSince(page, f.since)));
    (page + rest.0, rest.1)
  }

  /** `r` lies between the cursors, in order, without repetition. */
  predicate Between(r: seq<Record>, since: nat, end: nat) {
    since <= end && Ascending(r) && forall k :: 0 <= k < |r| ==> since <= r[k].index < end
  }

  /** Every match between the cursors that `last` still retains is in `r`. */
  predicate Covers(r: seq<Record>, last: seq<Record>, cap: nat, f: Filter, end: nat) {
    forall i :: f.since <= i < end && Oldest(|last|, cap) <= i < |last| && Matches(f, last[i]) ==> last[i] in r
  }

  lemma {:induction false} PageBetween(log: seq<Record>, cap: nat, f: Filter)
    requires Indexed(log)
    ensures Between(SnapshotOf(log, cap, f), f.since, NextSince(SnapshotOf(log, cap, f), f.since))
  {
    var all := Select(log, f, Start(log, cap, f));
    SelectSound(log, f, Start(log, cap, f));
    var page := SnapshotOf(log, cap, f);
    if page != [] {
      forall k | 0 <= k < |page| ensures page[k].index <= page[|page| - 1].index {
        assert k < |page| - 1 ==> all[k].index < all[|page| - 1].index;
      }
    }
  }

  /** One page: every match up to the next cursor that is retained is on it. */
  lemma {:induction false} PageCovers(log: seq<Record>, cap: nat, f: Filter)
    requires Indexed(log)
    ensures
      var page := SnapshotOf(log, cap, f);
      Covers(page, log, cap, f, NextSince(page, f.since)) && (page != [] ==> NextSince(page, f.since) <= |log|)
  {
    var start := Start(log, cap, f);
    var page := SnapshotOf(log, cap, f);
    if page != [] {
      PageBounds(log, cap, f);
      PageThenRest(log, cap, f);
      var next := NextSince(page, f.since);
      SelectSound(log, f, next);
      forall i | f.since <= i < next && Oldest(|log|, cap) <= i < |log| && Matches(f, log[i]) ensures log[i] in page {
        SelectComplete(log, f, start, i);
        assert log[i] in page + Select(log, f, next);
      }
    }
  }

  /**
    Paging over a log that grows meanwhile repeats nothing, and skips no match the ring still held
    when the last page was taken.
  */
  lemma {:induction false} LivePagingSkipsOnlyOverwritten(logs: seq<seq<Record>>, cap: nat, f: Filter)
    requires Growing(logs) && logs != []
    ensures
      var r, end := LivePages(logs, cap, f).0, LivePages(logs, cap, f).1;
      Between(r, f.since, end) && Covers(r, logs[|logs| - 1], cap, f, end)
  {
    var log, last := logs[0], logs[|logs| - 1];
    var page := SnapshotOf(log, cap, f);
    var g := f.(since := NextSince(page, f.since));
    PageBetween(log, cap, f);
    PageCovers(log, cap, f);
    if |logs| == 1 {
      assert LivePages(logs[1..], cap, g) == ([], g.since);
      assert page + [] == page;
    } else {
      LivePagingSkipsOnlyOverwritten(logs[1..], cap, g);
      assert log <= last && logs[1..][|logs| - 2] == last;
      JoinPages(page, LivePages(logs[1..], cap, g).0, log, last, cap, f, g, LivePages(logs[1..], cap, g).1);
    }
  }

  lemma {:induction false} JoinPages(
    page: seq<Record>, rest: seq<Record>, log: seq<Record>, last: seq<Record>, cap: nat, f: Filter, g: Filter, end: nat)
    requires log <= last && g == f.(since := g.since)
    requires Between(page, f.since, g.since) && Between(rest, g.since, end)
    requires Covers(page, log, cap, f, g.since) && Covers(rest, last, cap, g, end)
    requires g.since > f.since ==> g.since <= |log|
    ensures Between(page + rest, f.since, end) && Covers(page + rest, last, cap, f, end)
  {
    forall i | f.since <= i < end && Oldest(|last|, cap) <= i < |last| && Matches(f, last[i]) ensures last[i] in page + rest {
      if i < g.since {
        assert log[i] == last[i];
      } else {
        assert Matches(g, last[i]);
      }
    }
  }
}
