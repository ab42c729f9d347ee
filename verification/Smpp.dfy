/**
  SMPP v3.4 PDUs and their byte form, as functions.

  Encoding and decoding are written independently of each other: `Encode` prints a PDU, `Decode`
  parses a frame, and the module SmppTheorems connects the two. Parsers take the bytes still to be
  read and return the value with the rest. The cursor that walks a frame in place is in SmppCursor.
*/
module Smpp {
  import opened Wrappers

  type u16 = x: int | 0 <= x < 0x1_0000
  type u32 = x: int | 0 <= x < 0x1_0000_0000

  const HEADER_LEN: nat := 16
  const MAX_PDU_LEN: nat := 64 * 1024
  const MAX_C_OCTET_LEN: nat := 256
  const MAX_TLVS: nat := 64
  const MAX_SHORT_MESSAGE_LEN: nat := 254

  // Command ids, section 5.1.2.1 of SMPP v3.4.
  const BIND_RECEIVER: u32 := 0x0000_0001
  const BIND_TRANSMITTER: u32 := 0x0000_0002
  const SUBMIT_SM: u32 := 0x0000_0004
  const DELIVER_SM: u32 := 0x0000_0005
  const UNBIND: u32 := 0x0000_0006
  const BIND_TRANSCEIVER: u32 := 0x0000_0009
  const ENQUIRE_LINK: u32 := 0x0000_0015
  const RESPONSE_BIT: u32 := 0x8000_0000
  const GENERIC_NACK: u32 := RESPONSE_BIT

  datatype Tlv = Tlv(tag: u16, value: bytes)

  datatype Message = Message(
    serviceType: bytes,
    sourceTon: byte, sourceNpi: byte, sourceAddr: bytes,
    destTon: byte, destNpi: byte, destAddr: bytes,
    esmClass: byte, protocolId: byte, priorityFlag: byte,
    scheduleDeliveryTime: bytes, validityPeriod: bytes,
    registeredDelivery: byte, replaceIfPresent: byte, dataCoding: byte, smDefaultMsgId: byte,
    shortMessage: bytes,
    tlvs: seq<Tlv>)

  datatype Body =
    | Bind(systemId: bytes, password: bytes, systemType: bytes,
           interfaceVersion: byte, addrTon: byte, addrNpi: byte, addressRange: bytes)
    | BindResp(systemId: bytes, tlvs: seq<Tlv>)
    | Sm(m: Message)
    | SubmitResp(messageId: bytes)

  datatype Pdu = Pdu(commandId: u32, commandStatus: u32, sequenceNumber: u32, body: Option<Body>)

  datatype Error =
    | ShortPdu | BadCommandLength | Truncated | Unterminated | UnknownCommand | BadShortMessage | TooManyTlvs

  type Parsed<T> = Result<(T, bytes), Error>

  // ----- integers on the wire, most significant octet first -----

  function Put16(n: u16): (b: bytes)
    ensures |b| == 2
  {
    [n / 0x100, n % 0x100]
  }

  function Put32(n: u32): (b: bytes)
    ensures |b| == 4
  {
    Put16(n / 0x1_0000) + Put16(n % 0x1_0000)
  }

  function Get16(b: bytes): u16
    requires |b| >= 2
  {
    (b[0] as int) * 0x100 + b[1]
  }

  function Get32(b: bytes): u32
    requires |b| >= 4
  {
    (Get16(b) as int) * 0x1_0000 + Get16(b[2..])
  }

  // ----- the shape of a body: a run of C-Octet Strings and octets -----

  datatype Kind = CString | Octet

  datatype Field = Str(s: bytes) | Oct(o: byte)

  function KindOf(f: Field): Kind {
    if f.Str? then CString else Octet
  }

  function KindsOf(fs: seq<Field>): (ks: seq<Kind>)
    ensures |ks| == |fs|
    ensures forall i :: 0 <= i < |fs| ==> ks[i] == KindOf(fs[i])
  {
    seq(|fs|, i requires 0 <= i < |fs| => KindOf(fs[i]))
  }

  const BIND_KINDS: seq<Kind> := [CString, CString, CString, Octet, Octet, Octet, CString]

  const MESSAGE_KINDS: seq<Kind> :=
    [CString, Octet, Octet, CString, Octet, Octet, CString, Octet, Octet, Octet,
     CString, CString, Octet, Octet, Octet, Octet]

  function BindFields(b: Body): (fs: seq<Field>)
    requires b.Bind?
    ensures KindsOf(fs) == BIND_KINDS
  {
    [Str(b.systemId), Str(b.password), Str(b.systemType),
     Oct(b.interfaceVersion), Oct(b.addrTon), Oct(b.addrNpi), Str(b.addressRange)]
  }

  function BindOf(fs: seq<Field>): Body
    requires KindsOf(fs) == BIND_KINDS
  {
    assert forall i :: 0 <= i < 7 ==> KindOf(fs[i]) == BIND_KINDS[i];
    Bind(fs[0].s, fs[1].s, fs[2].s, fs[3].o, fs[4].o, fs[5].o, fs[6].s)
  }

  function MessageFields(m: Message): (fs: seq<Field>)
    ensures KindsOf(fs) == MESSAGE_KINDS
  {
    [Str(m.serviceType), Oct(m.sourceTon), Oct(m.sourceNpi), Str(m.sourceAddr),
     Oct(m.destTon), Oct(m.destNpi), Str(m.destAddr),
     Oct(m.esmClass), Oct(m.protocolId), Oct(m.priorityFlag),
     Str(m.scheduleDeliveryTime), Str(m.validityPeriod),
     Oct(m.registeredDelivery), Oct(m.replaceIfPresent), Oct(m.dataCoding), Oct(m.smDefaultMsgId)]
  }

  function MessageOf(fs: seq<Field>, text: bytes, tlvs: seq<Tlv>): Message
    requires KindsOf(fs) == MESSAGE_KINDS
  {
    assert forall i :: 0 <= i < 16 ==> KindOf(fs[i]) == MESSAGE_KINDS[i];
    Message(fs[0].s, fs[1].o, fs[2].o, fs[3].s, fs[4].o, fs[5].o, fs[6].s, fs[7].o, fs[8].o, fs[9].o,
            fs[10].s, fs[11].s, fs[12].o, fs[13].o, fs[14].o, fs[15].o, text, tlvs)
  }

  // ----- printing -----

  function PutField(f: Field): bytes {
    match f
    case Str(s) => s + [0]
    case Oct(o) => [o]
  }

  function PutFields(fs: seq<Field>): bytes {
    if fs == [] then [] else PutField(fs[0]) + PutFields(fs[1..])
  }

  function PutTlv(t: Tlv): bytes {
    Put16(t.tag) + Put16(|t.value| % 0x1_0000) + t.value
  }

  function PutTlvs(ts: seq<Tlv>): bytes {
    if ts == [] then [] else PutTlv(ts[0]) + PutTlvs(ts[1..])
  }

  /** The part of a short_message its one-octet length can address. */
  function Clamp(text: bytes): (c: bytes)
    ensures |c| <= MAX_SHORT_MESSAGE_LEN
  {
    if |text| > MAX_SHORT_MESSAGE_LEN then text[..MAX_SHORT_MESSAGE_LEN] else text
  }

  function Marshal(body: Body): bytes {
    match body
    case Bind(_, _, _, _, _, _, _) => PutFields(BindFields(body))
    case BindResp(id, tlvs) => PutField(Str(id)) + PutTlvs(tlvs)
    case Sm(m) => PutFields(MessageFields(m)) + ([|Clamp(m.shortMessage)|] + (Clamp(m.shortMessage) + PutTlvs(m.tlvs)))
    case SubmitResp(id) => PutField(Str(id))
  }

  function MarshalOption(body: Option<Body>): bytes {
    if body.None? then [] else Marshal(body.value)
  }

  function Encode(p: Pdu): Result<bytes, Error> {
    var body := MarshalOption(p.body);
    var total := HEADER_LEN + |body|;
    if total > MAX_PDU_LEN then Err(BadCommandLength)
    else Ok(Put32(total) + Put32(p.commandId) + Put32(p.commandStatus) + Put32(p.sequenceNumber) + body)
  }

  // ----- parsing -----

  /** The first NUL at or after `i` and before `limit`. */
  function FindNul(b: bytes, i: nat, limit: nat): (r: Option<nat>)
    requires i <= limit <= |b|
    ensures r.Some? ==> i <= r.value < limit && b[r.value] == 0 && 0 !in b[i..r.value]
    ensures r.None? ==> 0 !in b[i..limit]
    decreases limit - i
  {
    if i == limit then None
    else if b[i] == 0 then Some(i)
    else
      var r := FindNul(b, i + 1, limit);
      assert r.Some? ==> b[i..r.value] == [b[i]] + b[i + 1..r.value];
      assert b[i..limit] == [b[i]] + b[i + 1..limit];
      r
  }

  function GetCString(b: bytes): Parsed<bytes> {
    var limit := if |b| < MAX_C_OCTET_LEN then |b| else MAX_C_OCTET_LEN;
    match FindNul(b, 0, limit)
    case None => Err(Unterminated)
    case Some(i) => Ok((b[..i], b[i + 1..]))
  }

  function GetByte(b: bytes): Parsed<byte> {
    if b == [] then Err(Truncated) else Ok((b[0], b[1..]))
  }

  function GetOctets(b: bytes, n: nat): Parsed<bytes> {
    if n > |b| then Err(Truncated) else Ok((b[..n], b[n..]))
  }

  function GetField(k: Kind, b: bytes): Parsed<Field> {
    match k
    case CString => var (s, rest) :- GetCString(b); Ok((Str(s), rest))
    case Octet => var (o, rest) :- GetByte(b); Ok((Oct(o), rest))
  }

  function GetFields(ks: seq<Kind>, b: bytes): Parsed<seq<Field>> {
    if ks == [] then Ok(([], b)) else
    var (f, b1) :- GetField(ks[0], b);
    var (fs, b2) :- GetFields(ks[1..], b1);
    Ok(([f] + fs, b2))
  }

  /** Every remaining octet is tag/length/value triples; `have` of them were read already. */
  function GetTlvs(b: bytes, have: nat): Result<seq<Tlv>, Error>
    decreases |b|
  {
    if b == [] then Ok([])
    else if |b| < 4 then Err(Truncated)
    else if have >= MAX_TLVS then Err(TooManyTlvs)
    else
      var (value, rest) :- GetOctets(b[4..], Get16(b[2..]));
      var ts :- GetTlvs(rest, have + 1);
      Ok([Tlv(Get16(b), value)] + ts)
  }

  predicate IsBind(id: u32) {
    id in {BIND_RECEIVER, BIND_TRANSMITTER, BIND_TRANSCEIVER}
  }

  predicate IsBindResp(id: u32) {
    id in {RESPONSE_BIT + BIND_RECEIVER, RESPONSE_BIT + BIND_TRANSMITTER, RESPONSE_BIT + BIND_TRANSCEIVER}
  }

  predicate IsMessage(id: u32) {
    id in {SUBMIT_SM, DELIVER_SM}
  }

  predicate IsSubmitResp(id: u32) {
    id in {RESPONSE_BIT + SUBMIT_SM, RESPONSE_BIT + DELIVER_SM}
  }

  predicate IsHeaderOnly(id: u32) {
    id in {ENQUIRE_LINK, RESPONSE_BIT + ENQUIRE_LINK, UNBIND, RESPONSE_BIT + UNBIND, GENERIC_NACK}
  }

  function DecodeMessage(b: bytes): Result<Body, Error> {
    var (fs, b1) :- GetFields(MESSAGE_KINDS, b);
    var (n, b2) :- GetByte(b1);
    if n > MAX_SHORT_MESSAGE_LEN then Err(BadShortMessage) else
    var (text, b3) :- GetOctets(b2, n);
    var tlvs :- GetTlvs(b3, 0);
    FieldsHaveKinds(MESSAGE_KINDS, b);
    Ok(Sm(MessageOf(fs, text, tlvs)))
  }

  function DecodeBind(b: bytes): Result<Body, Error> {
    var (fs, _) :- GetFields(BIND_KINDS, b);
    FieldsHaveKinds(BIND_KINDS, b);
    Ok(BindOf(fs))
  }

  function DecodeBindResp(b: bytes): Result<Body, Error> {
    if b == [] then Ok(BindResp([], [])) else
    var (id, rest) :- GetCString(b);
    var tlvs :- GetTlvs(rest, 0);
    Ok(BindResp(id, tlvs))
  }

  function DecodeSubmitResp(b: bytes): Result<Body, Error> {
    if b == [] then Ok(SubmitResp([])) else
    var (id, _) :- GetCString(b);
    Ok(SubmitResp(id))
  }

  function DecodeBody(id: u32, b: bytes): Result<Option<Body>, Error> {
    if IsBind(id) then var body :- DecodeBind(b); Ok(Some(body))
    else if IsBindResp(id) then var body :- DecodeBindResp(b); Ok(Some(body))
    else if IsMessage(id) then var body :- DecodeMessage(b); Ok(Some(body))
    else if IsSubmitResp(id) then var body :- DecodeSubmitResp(b); Ok(Some(body))
    else if IsHeaderOnly(id) then Ok(None)
    else Err(UnknownCommand)
  }

  function Decode(frame: bytes): Result<Pdu, Error> {
    if |frame| < HEADER_LEN then Err(ShortPdu) else
    var body :- DecodeBody(Get32(frame[4..]), frame[HEADER_LEN..]);
    Ok(Pdu(Get32(frame[4..]), Get32(frame[8..]), Get32(frame[12..]), body))
  }

  /** Parsed fields come in the order and of the kinds asked for. */
  lemma {:induction false} FieldsHaveKinds(ks: seq<Kind>, b: bytes)
    ensures GetFields(ks, b).Ok? ==> KindsOf(GetFields(ks, b).value.0) == ks
  {
    if ks != [] && GetFields(ks, b).Ok? {
      var f := GetField(ks[0], b).value;
      FieldsHaveKinds(ks[1..], f.1);
      assert ks == [ks[0]] + ks[1..];
    }
  }
}
