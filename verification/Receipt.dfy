/** Message ids and delivery receipts: built from a submit, they reach the client intact and point back to one submit. */
module Receipt {
  import opened Wrappers
  import opened Smpp
  import opened SmppTheorems
  import opened Schema

  function Ascii(s: string): (b: bytes)
    ensures |b| == |s|
  {
    seq(|s|, i requires 0 <= i < |s| => (s[i] as int) % 0x100)
  }

  // ----- message ids -----

  const ZERO: byte := 0x30
  const DASH: byte := 0x2D

  predicate Digits(ds: bytes) {
    forall i :: 0 <= i < |ds| ==> ZERO <= ds[i] < ZERO + 10
  }

  /** Decimal rendering, %d. */
  function Decimal(n: nat): bytes {
    if n < 10 then [ZERO + n] else Decimal(n / 10) + [ZERO + n % 10]
  }

  /** Zero padding to four digits, %04d. */
  function Padded(ds: bytes): bytes {
    if |ds| < 4 then seq(4 - |ds|, _ => ZERO) + ds else ds
  }

  function MessageId(bind: nat, tick: nat): bytes {
    Decimal(bind) + [DASH] + Padded(Decimal(tick))
  }

  /** The number a run of digits denotes, leading zeros allowed. */
  function ValueOf(ds: bytes): nat
    requires Digits(ds)
  {
    if ds == [] then 0 else
    ValueOf(ds[..|ds| - 1]) * 10 + (ds[|ds| - 1] - ZERO)
  }

  lemma {:induction false} ValueOfDecimal(n: nat)
    ensures Decimal(n) != [] && Digits(Decimal(n)) && ValueOf(Decimal(n)) == n
  {
    var ds := Decimal(n);
    if n < 10 {
      assert ds[..|ds| - 1] == [];
    } else {
      ValueOfDecimal(n / 10);
      assert ds[..|ds| - 1] == Decimal(n / 10);
    }
  }

  lemma {:induction false} ValueOfZeros(k: nat, ds: bytes)
    requires Digits(ds)
    ensures Digits(seq(k, _ => ZERO) + ds) && ValueOf(seq(k, _ => ZERO) + ds) == ValueOf(ds)
    decreases k + |ds|
  {
    var all := seq(k, _ => ZERO) + ds;
    if ds != [] {
      ValueOfZeros(k, ds[..|ds| - 1]);
      assert all[..|all| - 1] == seq(k, _ => ZERO) + ds[..|ds| - 1];
    } else if k > 0 {
      ValueOfZeros(k - 1, ds);
      assert all[..|all| - 1] == seq(k - 1, _ => ZERO) + ds;
    } else {
      assert all == [];
    }
  }

  lemma {:induction false} ValueOfPadded(n: nat)
    ensures Digits(Padded(Decimal(n))) && ValueOf(Padded(Decimal(n))) == n
  {
    ValueOfDecimal(n);
    if |Decimal(n)| < 4 {
      ValueOfZeros(4 - |Decimal(n)|, Decimal(n));
    }
  }

  /** The dash ends the first run of digits. */
  lemma {:induction false} SplitAtDash(x: bytes, y: bytes, x': bytes, y': bytes)
    requires Digits(x) && Digits(x') && x + [DASH] + y == x' + [DASH] + y'
    ensures x == x' && y == y'
  {
    var id := x + [DASH] + y;
    assert id == x' + [DASH] + y';
    assert forall k :: 0 <= k < |x| ==> id[k] == x[k];
    assert forall k :: 0 <= k < |x'| ==> id[k] == x'[k];
    assert id[|x|] == DASH && id[|x'|] == DASH;
    assert |x| == |x'|;
    assert x == id[..|x|] && x' == id[..|x|];
    assert y == id[|x| + 1..] && y' == id[|x| + 1..];
  }

  /** A message id determines the bind and the tick it was minted for. */
  lemma {:induction false} MessageIdInjective(b: nat, t: nat, b': nat, t': nat)
    requires MessageId(b, t) == MessageId(b', t')
    ensures b == b' && t == t'
  {
    ValueOfDecimal(b);
    ValueOfDecimal(b');
    ValueOfPadded(t);
    ValueOfPadded(t');
    SplitAtDash(Decimal(b), Padded(Decimal(t)), Decimal(b'), Padded(Decimal(t')));
  }

  lemma {:induction false} NoLeadingZero(n: nat)
    ensures Decimal(n) != [] && (Decimal(n)[0] == ZERO ==> n == 0)
  {
    if n >= 10 {
      NoLeadingZero(n / 10);
    }
  }

  /**
    A message id is the bind's number, a dash, and the tick's on at least four digits: neither has a
    leading zero but a bind of zero and a tick below a thousand.
  */
  lemma {:induction false} MessageIdFormat(bind: nat, tick: nat) returns (ds: bytes, es: bytes)
    ensures MessageId(bind, tick) == ds + [0x2D] + es
    ensures Digits(ds) && ValueOf(ds) == bind && ds != [] && (ds[0] == 0x30 ==> ds == [0x30])
    ensures Digits(es) && ValueOf(es) == tick && |es| >= 4 && (|es| > 4 ==> es[0] != 0x30)
  {
    ds, es := Decimal(bind), Padded(Decimal(tick));
    ValueOfDecimal(bind);
    ValueOfPadded(tick);
    NoLeadingZero(bind);
    NoLeadingZero(tick);
  }

  function Pow10(k: nat): nat {
    if k == 0 then 1 else 10 * Pow10(k - 1)
  }

  lemma {:induction false} DecimalLength(n: nat, k: nat)
    requires k >= 1 && n < Pow10(k)
    ensures |Decimal(n)| <= k
  {
    if n >= 10 {
      assert k > 1;
      DecimalLength(n / 10, k - 1);
    }
  }

  lemma {:induction false} TwentyDigits()
    ensures TWO_64 <= Pow10(20)
  {
    assert Pow10(5) == 100_000;
    assert Pow10(10) == 10_000_000_000;
    assert Pow10(15) == 1_000_000_000_000_000;
    assert Pow10(20) == 100_000_000_000_000_000_000;
  }

  lemma {:induction false} MessageIdFits(bind: nat, tick: nat)
    requires bind < TWO_64 && tick < TWO_64
    ensures |MessageId(bind, tick)| <= 41 && 0 !in MessageId(bind, tick)
  {
    TwentyDigits();
    ValueOfDecimal(bind);
    ValueOfPadded(tick);
    DecimalLength(bind, 20);
    DecimalLength(tick, 20);
  }

  /** The submit_sm_resp of any submit encodes, so a receipt never stands in for a response that could not be queued. */
  lemma {:induction false} ResponseEncodes(bind: nat, tick: nat, status: u32, sequence: u32)
    requires bind < TWO_64 && tick < TWO_64
    ensures
      var p := Pdu(RESPONSE_BIT + SUBMIT_SM, status, sequence, Some(SubmitResp(MessageId(bind, tick))));
      Encode(p).Ok? && Decode(Encode(p).value) == Ok(p)
  {
    MessageIdFits(bind, tick);
    RoundTripIffWellFormed(Pdu(RESPONSE_BIT + SUBMIT_SM, status, sequence, Some(SubmitResp(MessageId(bind, tick)))));
  }

  // ----- receipts -----

  const RECEIPT_TEXT_MAX_LEN: nat := 20
  const ESM_CLASS_DELIVERY_RECEIPT: byte := 0x04
  const TAG_RECEIPTED_MESSAGE_ID: u16 := 0x001E
  const TAG_MESSAGE_STATE: u16 := 0x0427

  /** message_state, section 5.2.28 of SMPP v3.4, and the receipt's error code. */
  function WireState(o: DlrOutcome): (byte, bytes) {
    match o
    case Delivered => (2, Ascii("000"))
    case Expired => (3, Ascii("001"))
    case NotDelivered => (5, Ascii("001"))
  }

  function StatText(state: byte): bytes {
    match state
    case 1 => Ascii("ENROUTE")
    case 2 => Ascii("DELIVRD")
    case 3 => Ascii("EXPIRED")
    case 4 => Ascii("DELETED")
    case 5 => Ascii("UNDELIV")
    case 6 => Ascii("ACCEPTD")
    case 8 => Ascii("REJECTD")
    case _ => Ascii("UNKNOWN")
  }

  function FirstOctets(text: bytes): bytes {
    if |text| > RECEIPT_TEXT_MAX_LEN then text[..RECEIPT_TEXT_MAX_LEN] else text
  }

  /** The short_message of a receipt, Appendix B of SMPP v3.4. */
  function ReceiptText(id: bytes, state: byte, err: bytes, submitDate: bytes, doneDate: bytes, text: bytes): bytes {
    Ascii("id:") + id + Ascii(" sub:001 dlvrd:") + (if state == 2 then Ascii("001") else Ascii("000"))
    + Ascii(" submit date:") + submitDate + Ascii(" done date:") + doneDate
    + Ascii(" stat:") + StatText(state) + Ascii(" err:") + err + Ascii(" text:") + FirstOctets(text)
  }

  /** The deliver_sm that reports `o` for the submit `m`: its addresses swapped, its id in text and in an optional parameter. */
  function DeliveryReceipt(m: Message, id: bytes, o: DlrOutcome, submitDate: bytes, doneDate: bytes): Pdu {
    var (state, err) := WireState(o);
    Pdu(DELIVER_SM, 0, 0,
        Some(Sm(Message([], m.destTon, m.destNpi, m.destAddr, m.sourceTon, m.sourceNpi, m.sourceAddr,
                        ESM_CLASS_DELIVERY_RECEIPT, 0, 0, [], [], 0, 0, 0, 0,
                        ReceiptText(id, state, err, submitDate, doneDate, m.shortMessage),
                        [Tlv(TAG_RECEIPTED_MESSAGE_ID, id + [0]), Tlv(TAG_MESSAGE_STATE, [state])]))))
  }

  /** What an ESME reads as the receipted id: the optional parameter up to its terminator. */
  function ReceiptedId(p: Pdu): Option<bytes> {
    if p.body.None? || !p.body.value.Sm? then None else
    var ts := p.body.value.m.tlvs;
    if |ts| == 0 || ts[0].tag != TAG_RECEIPTED_MESSAGE_ID then None else
    var r := GetCString(ts[0].value);
    if r.Ok? then Some(r.value.0) else None
  }

  lemma {:induction false} ReceiptTextFits(id: bytes, state: byte, err: bytes, submitDate: bytes, doneDate: bytes, text: bytes)
    requires |id| <= 41 && |err| == 3 && |submitDate| == 10 && |doneDate| == 10
    ensures |ReceiptText(id, state, err, submitDate, doneDate, text)| <= 153
  {
    assert |StatText(state)| == 7;
  }

  /** message_state of a receipt, by outcome. */
  predicate ReportsState(o: DlrOutcome, state: byte) {
    && (o.Delivered? <==> state == 2) && (o.Expired? <==> state == 3) && (o.NotDelivered? <==> state == 5)
  }

  /** What a receipt says of each outcome after dlvrd:, stat: and err:. */
  function Words(o: DlrOutcome): (string, string, string) {
    match o
    case Delivered => ("001", "DELIVRD", "000")
    case Expired => ("000", "EXPIRED", "001")
    case NotDelivered => ("000", "UNDELIV", "001")
  }

  /** The text of a receipt, around the id, the dates and the first twenty octets of the submit's text. */
  predicate Reads(o: DlrOutcome, text: bytes, id: bytes, submitDate: bytes, doneDate: bytes, original: bytes) {
    var (dlvrd, stat, err) := Words(o);
    text == Ascii("id:") + id + Ascii(" sub:001 dlvrd:") + Ascii(dlvrd)
            + Ascii(" submit date:") + submitDate + Ascii(" done date:") + doneDate
            + Ascii(" stat:") + Ascii(stat) + Ascii(" err:") + Ascii(err)
            + Ascii(" text:") + if |original| <= 20 then original else original[..20]
  }

  /**
    `p` is the deliver_sm reporting outcome `o` for the submit `m`: it goes back where the submit came from,
    flagged as a receipt, and says in text and in two optional parameters which submit ended how.
  */
  predicate Reports(p: Pdu, m: Message, id: bytes, o: DlrOutcome, submitDate: bytes, doneDate: bytes) {
    && p.commandId == 0x0000_0005 && p.body.Some? && p.body.value.Sm?
    && var r := p.body.value.m;
       && r.sourceAddr == m.destAddr && r.sourceTon == m.destTon && r.sourceNpi == m.destNpi
       && r.destAddr == m.sourceAddr && r.destTon == m.sourceTon && r.destNpi == m.sourceNpi
       && r.esmClass == 0x04
       && |r.tlvs| == 2 && r.tlvs[0] == Tlv(0x001E, id + [0])
       && r.tlvs[1].tag == 0x0427 && |r.tlvs[1].value| == 1 && ReportsState(o, r.tlvs[1].value[0])
       && Reads(o, r.shortMessage, id, submitDate, doneDate, m.shortMessage)
  }

  /**
    For every submit_sm the decoder accepts and every outcome, the receipt reports that outcome to the
    submit's source, stays under the one-octet length of short_message, encodes, and decodes to itself;
    the client reads the id of that very submit.
  */
  lemma {:induction false} ReceiptArrivesIntact(frame: bytes, bind: nat, tick: nat, o: DlrOutcome, submitDate: bytes, doneDate: bytes)
    requires Decode(frame).Ok? && Decode(frame).value.commandId == SUBMIT_SM
    requires bind < TWO_64 && tick < TWO_64 && |submitDate| == 10 && |doneDate| == 10
    ensures
      var submitted := Decode(frame).value.body;
      && submitted.Some? && submitted.value.Sm?
      && var p := DeliveryReceipt(submitted.value.m, MessageId(bind, tick), o, submitDate, doneDate);
         && |p.body.value.m.shortMessage| < MAX_SHORT_MESSAGE_LEN
         && Encode(p).Ok? && Decode(Encode(p).value) == Ok(p)
         && ReceiptedId(p) == Some(MessageId(bind, tick))
         && Reports(p, submitted.value.m, MessageId(bind, tick), o, submitDate, doneDate)
  {
    BodyPrints(SUBMIT_SM, frame[HEADER_LEN..]);
    var m := Decode(frame).value.body.value.m;
    ReceiptOfMessage(m, bind, tick, o, submitDate, doneDate);
    ReceiptReports(m, MessageId(bind, tick), o, submitDate, doneDate);
  }

  lemma {:induction false} ReceiptReports(m: Message, id: bytes, o: DlrOutcome, submitDate: bytes, doneDate: bytes)
    ensures Reports(DeliveryReceipt(m, id, o, submitDate, doneDate), m, id, o, submitDate, doneDate)
  {
    ReceiptReads(o, id, submitDate, doneDate, m.shortMessage);
  }

  lemma {:induction false} ReceiptReads(o: DlrOutcome, id: bytes, submitDate: bytes, doneDate: bytes, text: bytes)
    ensures
      var (state, err) := WireState(o);
      Reads(o, ReceiptText(id, state, err, submitDate, doneDate, text), id, submitDate, doneDate, text)
  {
    var (state, err) := WireState(o);
    assert err == Ascii(Words(o).2) && StatText(state) == Ascii(Words(o).1);
    assert FirstOctets(text) == if |text| <= 20 then text else text[..20];
  }

  lemma {:induction false} ReceiptNames(m: Message, id: bytes, o: DlrOutcome, submitDate: bytes, doneDate: bytes)
    requires |id| < MAX_C_OCTET_LEN && 0 !in id
    ensures ReceiptedId(DeliveryReceipt(m, id, o, submitDate, doneDate)) == Some(id)
  {
    CStringReads(id, []);
    assert id + [0] + [] == id + [0];
  }

  lemma {:induction false} ReceiptOfMessage(m: Message, bind: nat, tick: nat, o: DlrOutcome, submitDate: bytes, doneDate: bytes)
    requires FieldsOk(MessageFields(m))
    requires bind < TWO_64 && tick < TWO_64 && |submitDate| == 10 && |doneDate| == 10
    ensures
      var p := DeliveryReceipt(m, MessageId(bind, tick), o, submitDate, doneDate);
      && |p.body.value.m.shortMessage| < MAX_SHORT_MESSAGE_LEN
      && Encode(p).Ok? && Decode(Encode(p).value) == Ok(p)
      && ReceiptedId(p) == Some(MessageId(bind, tick))
  {
    var id := MessageId(bind, tick);
    MessageIdFits(bind, tick);
    ReceiptTextFits(id, WireState(o).0, WireState(o).1, submitDate, doneDate, m.shortMessage);
    var p := DeliveryReceipt(m, id, o, submitDate, doneDate);
    ReceiptNames(m, id, o, submitDate, doneDate);
    SwappedFieldsOk(m, p.body.value.m);
    ReceiptSize(p.body.value.m);
    assert WellFormed(p);
    RoundTripIffWellFormed(p);
  }

  /** The addresses of an accepted submit are terminated strings within bounds. */
  lemma {:induction false} SwappedFieldsOk(m: Message, r: Message)
    requires FieldsOk(MessageFields(m))
    requires r.sourceAddr == m.destAddr && r.destAddr == m.sourceAddr
    requires r.serviceType == r.scheduleDeliveryTime == r.validityPeriod == []
    ensures FieldsOk(MessageFields(r)) && |r.sourceAddr| < 256 && |r.destAddr| < 256
  {
    assert FieldOk(MessageFields(m)[3]) && FieldOk(MessageFields(m)[6]);
  }

  lemma {:induction false} FieldsSize(fs: seq<Field>)
    requires FieldsOk(fs)
    ensures |PutFields(fs)| <= 256 * |fs|
  {
    if fs != [] {
      assert FieldOk(fs[0]);
      FieldsSize(fs[1..]);
    }
  }

  lemma {:induction false} ReceiptSize(r: Message)
    requires FieldsOk(MessageFields(r)) && |r.shortMessage| <= MAX_SHORT_MESSAGE_LEN
    requires |r.tlvs| == 2 && |r.tlvs[0].value| <= 42 && |r.tlvs[1].value| <= 1
    ensures |Marshal(Sm(r))| <= 5000
  {
    FieldsSize(MessageFields(r));
    var last := r.tlvs[1..];
    assert last == [r.tlvs[1]] && last[1..] == [];
    assert PutTlvs(last) == PutTlv(r.tlvs[1]) + [];
    assert |PutTlvs(r.tlvs)| == |PutTlv(r.tlvs[0])| + |PutTlvs(last)|;
  }

  /** Receipts for different submits of one virtual SMSC carry different ids. */
  lemma {:induction false} ReceiptsPointToOneSubmit(m: Message, m': Message, b: nat, t: nat, b': nat, t': nat, o: DlrOutcome, o': DlrOutcome,
                                 d: bytes, e: bytes, d': bytes, e': bytes)
    requires DeliveryReceipt(m, MessageId(b, t), o, d, e) == DeliveryReceipt(m', MessageId(b', t'), o', d', e')
    ensures b == b' && t == t' && o == o'
  {
    var r := DeliveryReceipt(m, MessageId(b, t), o, d, e).body.value.m;
    var r' := DeliveryReceipt(m', MessageId(b', t'), o', d', e').body.value.m;
    assert r.tlvs[0].value[..|r.tlvs[0].value| - 1] == MessageId(b, t);
    assert r'.tlvs[0].value[..|r'.tlvs[0].value| - 1] == MessageId(b', t');
    MessageIdInjective(b, t, b', t');
    assert r.tlvs[1].value[0] == r'.tlvs[1].value[0];
  }
}
