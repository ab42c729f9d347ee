/** The error mix of a flaky carrier: a map of codes to weights, flattened in code order whatever order the map is walked in. */
module ErrorMix {
  import opened Wrappers
  import opened Picks
  import opened Schema

  const ROK: Code := "ESME_ROK"

  predicate IsErrorCode(c: Code) {
    c in {"ESME_RTHROTTLED", "ESME_RSUBMITFAIL", "ESME_RINVDSTADR", "ESME_RSYSERR", "ESME_RMSGQFUL", "ESME_RINVSRCADR"}
  }

  const STATUS_SYS_ERR: nat := 0x08
  const STATUS_SUBMIT_FAIL: nat := 0x45
  const STATUS_THROTTLED: nat := 0x58

  /** The wire status of a configured code. */
  function StatusFor(c: Code): nat {
    if c == ROK then 0x00
    else if c == "ESME_RTHROTTLED" then STATUS_THROTTLED
    else if c == "ESME_RSUBMITFAIL" then STATUS_SUBMIT_FAIL
    else if c == "ESME_RINVDSTADR" then 0x0B
    else if c == "ESME_RSYSERR" then STATUS_SYS_ERR
    else if c == "ESME_RMSGQFUL" then 0x14
    else if c == "ESME_RINVSRCADR" then 0x0A
    else STATUS_SYS_ERR
  }

  lemma {:induction false} StatusInjective(c: Code, d: Code)
    requires IsErrorCode(c) && IsErrorCode(d) && StatusFor(c) == StatusFor(d)
    ensures c == d && StatusFor(c) != 0
  {
  }

  /** The status of each code on the wire; any other code but ESME_ROK answers a system error. */
  lemma {:induction false} WireStatuses(c: Code)
    ensures StatusFor(c) == 0x00 <==> c == "ESME_ROK"
    ensures StatusFor(c) == 0x58 <==> c == "ESME_RTHROTTLED"
    ensures StatusFor(c) == 0x45 <==> c == "ESME_RSUBMITFAIL"
    ensures StatusFor(c) == 0x0B <==> c == "ESME_RINVDSTADR"
    ensures StatusFor(c) == 0x14 <==> c == "ESME_RMSGQFUL"
    ensures StatusFor(c) == 0x0A <==> c == "ESME_RINVSRCADR"
    ensures StatusFor(c) in {0x00, 0x58, 0x45, 0x0B, 0x14, 0x0A, 0x08}
  {
  }

  // ----- code order -----

  predicate Less(a: string, b: string) {
    if b == [] then false
    else a == [] || a[0] < b[0] || (a[0] == b[0] && Less(a[1..], b[1..]))
  }

  lemma {:induction false} LessTransitive(a: string, b: string, c: string)
    requires Less(a, b) && Less(b, c)
    ensures Less(a, c)
  {
    if a != [] && a[0] == b[0] == c[0] {
      LessTransitive(a[1..], b[1..], c[1..]);
    }
  }

  lemma {:induction false} LessTotal(a: string, b: string)
    ensures a == b || Less(a, b) || Less(b, a)
    ensures Less(a, b) ==> a != b && !Less(b, a)
  {
    if a != [] && b != [] {
      LessTotal(a[1..], b[1..]);
      assert a == [a[0]] + a[1..] && b == [b[0]] + b[1..];
    }
  }

  predicate Ascending(cs: seq<Code>) {
    forall i, j :: 0 <= i < j < |cs| ==> Less(cs[i], cs[j])
  }

  function Insert(cs: seq<Code>, c: Code): seq<Code> {
    if cs == [] || Less(c, cs[0]) then [c] + cs else [cs[0]] + Insert(cs[1..], c)
  }

  function SortCodes(cs: seq<Code>): seq<Code> {
    if cs == [] then [] else Insert(SortCodes(cs[1..]), cs[0])
  }

  predicate Distinct(cs: seq<Code>) {
    forall i, j :: 0 <= i < j < |cs| ==> cs[i] != cs[j]
  }

  lemma {:induction false} InsertAscending(cs: seq<Code>, c: Code)
    requires Ascending(cs) && c !in cs
    ensures Ascending(Insert(cs, c)) && forall x :: x in Insert(cs, c) <==> x == c || x in cs
  {
    if cs != [] {
      var r := Insert(cs[1..], c);
      if Less(c, cs[0]) {
        forall i | 0 <= i < |cs| ensures Less(c, cs[i]) {
          if i > 0 {
            LessTransitive(c, cs[0], cs[i]);
          }
        }
      } else {
        InsertAscending(cs[1..], c);
        LessTotal(c, cs[0]);
        forall i | 0 <= i < |r| ensures Less(cs[0], r[i]) {
          assert r[i] in r;
          assert r[i] != c ==> r[i] in cs[1..];
        }
      }
      assert forall x :: x in cs <==> x == cs[0] || x in cs[1..];
    }
  }

  lemma {:induction false} SortAscending(cs: seq<Code>)
    requires Distinct(cs)
    ensures Ascending(SortCodes(cs)) && forall x :: x in SortCodes(cs) <==> x in cs
  {
    if cs != [] {
      SortAscending(cs[1..]);
      InsertAscending(SortCodes(cs[1..]), cs[0]);
      assert forall x :: x in cs <==> x == cs[0] || x in cs[1..];
    }
  }

  /** A set of codes has one ascending listing. */
  lemma {:induction false} AscendingUnique(a: seq<Code>, b: seq<Code>)
    requires Ascending(a) && Ascending(b) && forall x :: x in a <==> x in b
    ensures a == b
  {
    if a == [] {
      assert forall i :: 0 <= i < |b| ==> b[i] in b;
    } else {
      assert a[0] in b;
      assert b[0] in a;
      LessTotal(a[0], b[0]);
      assert forall x :: x in a[1..] <==> x in a && x != a[0] by { TailMembers(a); }
      assert forall x :: x in b[1..] <==> x in b && x != b[0] by { TailMembers(b); }
      AscendingUnique(a[1..], b[1..]);
      assert a == [a[0]] + a[1..] && b == [b[0]] + b[1..];
    }
  }

  lemma {:induction false} TailMembers(a: seq<Code>)
    requires Ascending(a) && a != []
    ensures forall x :: x in a[1..] <==> x in a && x != a[0]
  {
    forall i | 1 <= i < |a| ensures a[i] != a[0] {
      LessTotal(a[0], a[i]);
    }
    assert forall i :: 1 <= i < |a| ==> a[i] == a[1..][i - 1];
  }

  // ----- the mix -----

  /** One order in which the map may be walked. */
  predicate Lists(codes: seq<Code>, mix: map<Code, nat>) {
    Distinct(codes) && (forall c :: c in codes ==> c in mix) && (forall c :: c in mix ==> c in codes)
  }

  function WeightsOf(mix: map<Code, nat>, codes: seq<Code>): seq<Weight<nat>>
    requires forall c :: c in codes ==> c in mix
  {
    if codes == [] then [] else [Weight(StatusFor(codes[0]), mix[codes[0]])] + WeightsOf(mix, codes[1..])
  }

  /** The weights of a mix in code order. */
  function Ordered(mix: map<Code, nat>, codes: seq<Code>): seq<Weight<nat>>
    requires Lists(codes, mix)
  {
    SortAscending(codes);
    WeightsOf(mix, SortCodes(codes))
  }

  method BuildErrorMix(mix: map<Code, nat>, listing: seq<Code>) returns (out: seq<Bounded<nat>>)
    requires Lists(listing, mix)
    ensures out == Flatten64(Ordered(mix, listing), 0)
    ensures Total(Ordered(mix, listing)) < TWO_64 ==> out == Flatten(Ordered(mix, listing), 0)
  {
    SortAscending(listing);
    var codes := SortCodes(listing);
    out := BuildMix(WeightsOf(mix, codes));
  }

  /** The mix does not depend on the order in which the map is walked. */
  lemma {:induction false} OrderIndependent(mix: map<Code, nat>, a: seq<Code>, b: seq<Code>)
    requires Lists(a, mix) && Lists(b, mix)
    ensures Ordered(mix, a) == Ordered(mix, b)
  {
    SortAscending(a);
    SortAscending(b);
    AscendingUnique(SortCodes(a), SortCodes(b));
  }

  /** A mix the validator accepts: error codes only, each weight bounded, the sum not zero. */
  predicate Accepted(mix: map<Code, nat>, listing: seq<Code>)
    requires Lists(listing, mix)
  {
    (forall c :: c in mix ==> IsErrorCode(c) && mix[c] <= WEIGHT_MAX) && Sum(Values(mix, listing)) % TWO_64 != 0
  }

  function Values(mix: map<Code, nat>, codes: seq<Code>): seq<nat>
    requires forall c :: c in codes ==> c in mix
  {
    if codes == [] then [] else [mix[codes[0]]] + Values(mix, codes[1..])
  }

  lemma {:induction false} ValuesAt(mix: map<Code, nat>, codes: seq<Code>)
    requires forall c :: c in codes ==> c in mix
    ensures |Values(mix, codes)| == |codes|
    ensures forall i :: 0 <= i < |codes| ==> Values(mix, codes)[i] == mix[codes[i]]
  {
    if codes != [] {
      ValuesAt(mix, codes[1..]);
    }
  }

  lemma {:induction false} TotalIsSum(mix: map<Code, nat>, codes: seq<Code>)
    requires forall c :: c in codes ==> c in mix
    ensures Total(WeightsOf(mix, codes)) == Sum(Values(mix, codes))
  {
    if codes != [] {
      TotalIsSum(mix, codes[1..]);
    }
  }

  lemma {:induction false} InsertTotal(mix: map<Code, nat>, cs: seq<Code>, c: Code)
    requires c in mix && forall x :: x in cs ==> x in mix
    ensures forall x :: x in Insert(cs, c) ==> x in mix
    ensures Total(WeightsOf(mix, Insert(cs, c))) == mix[c] + Total(WeightsOf(mix, cs))
  {
    if cs == [] || Less(c, cs[0]) {
      assert ([c] + cs)[1..] == cs;
    } else {
      InsertTotal(mix, cs[1..], c);
      assert ([cs[0]] + Insert(cs[1..], c))[1..] == Insert(cs[1..], c);
    }
  }

  lemma {:induction false} SortTotal(mix: map<Code, nat>, cs: seq<Code>)
    requires forall x :: x in cs ==> x in mix
    ensures forall x :: x in SortCodes(cs) ==> x in mix
    ensures Total(WeightsOf(mix, SortCodes(cs))) == Total(WeightsOf(mix, cs))
  {
    if cs != [] {
      SortTotal(mix, cs[1..]);
      InsertTotal(mix, SortCodes(cs[1..]), cs[0]);
    }
  }

  lemma {:induction false} DistinctBound(cs: seq<Code>, s: set<Code>)
    requires Distinct(cs) && forall c :: c in cs ==> c in s
    ensures |cs| <= |s|
  {
    if cs != [] {
      forall c | c in cs[1..] ensures c in s - {cs[0]} {
        var i :| 0 <= i < |cs[1..]| && cs[1..][i] == c;
        assert cs[i + 1] == c && cs[0] in cs;
      }
      DistinctBound(cs[1..], s - {cs[0]});
      assert cs[0] in s;
    }
  }

  lemma {:induction false} SixCodes(s: set<Code>)
    requires s == {"ESME_RTHROTTLED", "ESME_RSUBMITFAIL", "ESME_RINVDSTADR", "ESME_RSYSERR", "ESME_RMSGQFUL", "ESME_RINVSRCADR"}
    ensures |s| <= 6
  {
    var a := {"ESME_RTHROTTLED", "ESME_RSUBMITFAIL", "ESME_RINVDSTADR"};
    var b := {"ESME_RSYSERR", "ESME_RMSGQFUL", "ESME_RINVSRCADR"};
    assert s == a + b && |a| <= 3 && |b| <= 3;
  }

  /** There are only six codes to list. */
  lemma {:induction false} FewListed(listing: seq<Code>)
    requires Distinct(listing) && forall c :: c in listing ==> IsErrorCode(c)
    ensures |listing| <= 6
  {
    var six := {"ESME_RTHROTTLED", "ESME_RSUBMITFAIL", "ESME_RINVDSTADR", "ESME_RSYSERR", "ESME_RMSGQFUL", "ESME_RINVSRCADR"};
    DistinctBound(listing, six);
    SixCodes(six);
  }

  lemma {:induction false} AcceptedSum(mix: map<Code, nat>, listing: seq<Code>)
    requires Lists(listing, mix) && Accepted(mix, listing)
    ensures 0 < Sum(Values(mix, listing)) < TWO_64
  {
    FewListed(listing);
    ValuesAt(mix, listing);
    forall i | 0 <= i < |listing| ensures Values(mix, listing)[i] <= WEIGHT_MAX {
      assert listing[i] in mix;
    }
    BoundedSum(Values(mix, listing));
  }

  lemma {:induction false} OrderedTotal(mix: map<Code, nat>, listing: seq<Code>)
    requires Lists(listing, mix)
    ensures Total(Ordered(mix, listing)) == Sum(Values(mix, listing))
  {
    SortTotal(mix, listing);
    TotalIsSum(mix, listing);
  }

  /** An accepted mix sums to something between one and 2^64, however it is listed. */
  lemma {:induction false} AcceptedTotal(mix: map<Code, nat>, listing: seq<Code>)
    requires Lists(listing, mix) && Accepted(mix, listing)
    ensures 0 < Total(Ordered(mix, listing)) < TWO_64
  {
    AcceptedSum(mix, listing);
    OrderedTotal(mix, listing);
  }

  /** So its bounds are the unwrapped ones, up to its sum. */
  lemma {:induction false} AcceptedFlat(mix: map<Code, nat>, listing: seq<Code>)
    requires Lists(listing, mix) && Accepted(mix, listing)
    ensures
      var flat := Flatten64(Ordered(mix, listing), 0);
      && flat == Flatten(Ordered(mix, listing), 0) && flat != []
      && 0 < flat[|flat| - 1].cum == Total(Ordered(mix, listing)) < TWO_64
  {
    AcceptedTotal(mix, listing);
    FlattenFits(Ordered(mix, listing), 0);
    FlattenedTotal(Ordered(mix, listing), 0);
  }

  lemma {:induction false} WeightOfCode(mix: map<Code, nat>, codes: seq<Code>, c: Code)
    requires Distinct(codes) && IsErrorCode(c)
    requires forall x :: x in codes ==> x in mix && IsErrorCode(x)
    ensures WeightOf(WeightsOf(mix, codes), StatusFor(c)) == if c in codes then mix[c] else 0
  {
    if codes != [] {
      WeightOfCode(mix, codes[1..], c);
      assert codes[0] in codes;
      if StatusFor(codes[0]) == StatusFor(c) {
        StatusInjective(codes[0], c);
      }
      assert c in codes <==> c == codes[0] || c in codes[1..];
      assert codes[0] !in codes[1..];
    }
  }

  lemma {:induction false} NoOtherStatus(mix: map<Code, nat>, codes: seq<Code>, status: nat)
    requires forall x :: x in codes ==> x in mix
    requires forall x :: x in codes ==> StatusFor(x) != status
    ensures WeightOf(WeightsOf(mix, codes), status) == 0
  {
    if codes != [] {
      assert codes[0] in codes;
      NoOtherStatus(mix, codes[1..], status);
    }
  }

  /**
    Of the equally likely draws an accepted mix makes, exactly w(c) answer the status of code c, whatever
    order the map was walked in; the range drawn from is never empty.
  */
  lemma {:induction false} ErrorMixExact(mix: map<Code, nat>, listing: seq<Code>, c: Code)
    requires Lists(listing, mix) && Accepted(mix, listing) && IsErrorCode(c)
    ensures
      var total, flat := Total(Ordered(mix, listing)), Flatten64(Ordered(mix, listing), 0);
      && 0 < total < TWO_64 && flat != [] && flat[|flat| - 1].cum == total
      && Hits(flat, StatusFor(c), 0, total) == (if c in mix then mix[c] else 0)
  {
    AcceptedFlat(mix, listing);
    PicksExact(Ordered(mix, listing), StatusFor(c));
    SortAscending(listing);
    forall i, j | 0 <= i < j < |SortCodes(listing)| ensures SortCodes(listing)[i] != SortCodes(listing)[j] {
      LessTotal(SortCodes(listing)[i], SortCodes(listing)[j]);
    }
    WeightOfCode(mix, SortCodes(listing), c);
  }

  /** Whatever is drawn, the status answered is that of a configured code with weight, so never ESME_ROK. */
  lemma {:induction false} ErrorMixAnswersConfigured(mix: map<Code, nat>, listing: seq<Code>, n: nat)
    requires Lists(listing, mix) && Accepted(mix, listing) && n < Total(Ordered(mix, listing))
    ensures Flatten64(Ordered(mix, listing), 0) != []
    ensures exists c :: c in mix && mix[c] > 0 && StatusFor(c) == Picked(Flatten64(Ordered(mix, listing), 0), n) != 0
  {
    AcceptedFlat(mix, listing);
    PickedHasWeight(Ordered(mix, listing), n);
    var status := Picked(Flatten(Ordered(mix, listing), 0), n);
    SortAscending(listing);
    if forall x :: x in SortCodes(listing) ==> StatusFor(x) != status {
      NoOtherStatus(mix, SortCodes(listing), status);
    }
    var c :| c in SortCodes(listing) && StatusFor(c) == status;
    assert c in mix && IsErrorCode(c);
    PicksExact(Ordered(mix, listing), status);
    ErrorMixExact(mix, listing, c);
    StatusInjective(c, c);
  }
}
