/** Encoding and decoding are inverse, exactly where they can be, one PDU at a time and over a stream. */
module SmppTheorems {
  import opened Wrappers
  import opened Smpp

  // ----- well-formed PDUs: what the wire can carry without loss -----

  predicate StringOk(s: bytes) {
    0 !in s && |s| < MAX_C_OCTET_LEN
  }

  predicate FieldOk(f: Field) {
    f.Str? ==> StringOk(f.s)
  }

  predicate FieldsOk(fs: seq<Field>) {
    forall i :: 0 <= i < |fs| ==> FieldOk(fs[i])
  }

  predicate TlvsOk(ts: seq<Tlv>) {
    forall i :: 0 <= i < |ts| ==> |ts[i].value| < 0x1_0000
  }

  predicate BodyOk(body: Body) {
    match body
    case Bind(_, _, _, _, _, _, _) => FieldsOk(BindFields(body))
    case BindResp(id, tlvs) => StringOk(id) && |tlvs| <= MAX_TLVS && TlvsOk(tlvs)
    case Sm(m) =>
      && FieldsOk(MessageFields(m)) && |m.shortMessage| <= MAX_SHORT_MESSAGE_LEN
      && |m.tlvs| <= MAX_TLVS && TlvsOk(m.tlvs)
    case SubmitResp(id) => StringOk(id)
  }

  /** The body a command carries. */
  predicate BodyFits(id: u32, body: Option<Body>) {
    if IsBind(id) then body.Some? && body.value.Bind?
    else if IsBindResp(id) then body.Some? && body.value.BindResp?
    else if IsMessage(id) then body.Some? && body.value.Sm?
    else if IsSubmitResp(id) then body.Some? && body.value.SubmitResp?
    else IsHeaderOnly(id) && body.None?
  }

  predicate WellFormed(p: Pdu) {
    BodyFits(p.commandId, p.body) && (p.body.Some? ==> BodyOk(p.body.value))
  }

  // ----- integers -----

  lemma {:induction false} Get16Put16(n: u16, rest: bytes)
    ensures Get16(Put16(n) + rest) == n
  {
  }

  lemma {:induction false} Put16Get16(b: bytes)
    requires |b| >= 2
    ensures Put16(Get16(b)) == b[..2]
  {
  }

  lemma {:induction false} Get32Put32(n: u32, rest: bytes)
    ensures Get32(Put32(n) + rest) == n
  {
    assert (Put32(n) + rest)[2..] == Put16(n % 0x1_0000) + rest;
  }

  lemma {:induction false} Put32Get32(b: bytes)
    requires |b| >= 4
    ensures Put32(Get32(b)) == b[..4]
  {
    Put16Get16(b);
    Put16Get16(b[2..]);
    assert b[..4] == b[..2] + b[2..][..2];
  }

  // ----- fields -----

  lemma {:induction false} FirstNul(b: bytes, i: nat, limit: nat, k: nat)
    requires i <= k < limit <= |b| && b[k] == 0 && 0 !in b[i..k]
    ensures FindNul(b, i, limit) == Some(k)
    decreases k - i
  {
    if i < k {
      assert b[i] == b[i..k][0] && b[i + 1..k] == b[i..k][1..];
      FirstNul(b, i + 1, limit, k);
    }
  }

  lemma {:induction false} NoNul(b: bytes, i: nat, limit: nat)
    requires i <= limit <= |b| && 0 !in b[i..limit]
    ensures FindNul(b, i, limit) == None
    decreases limit - i
  {
    if i < limit {
      assert b[i] == b[i..limit][0] && b[i + 1..limit] == b[i..limit][1..];
      NoNul(b, i + 1, limit);
    }
  }

  lemma {:induction false} CStringReads(s: bytes, rest: bytes)
    requires StringOk(s)
    ensures GetCString(s + [0] + rest) == Ok((s, rest))
  {
    var b := s + [0] + rest;
    assert b[0..|s|] == s && b[|s| + 1..] == rest;
    FirstNul(b, 0, if |b| < MAX_C_OCTET_LEN then |b| else MAX_C_OCTET_LEN, |s|);
  }

  lemma {:induction false} CStringPrints(b: bytes)
    requires GetCString(b).Ok?
    ensures var (s, rest) := GetCString(b).value; b == s + [0] + rest && StringOk(s)
  {
    var (s, rest) := GetCString(b).value;
    assert b[0..|s|] == s;
  }

  lemma {:induction false} FieldReads(f: Field, rest: bytes)
    requires FieldOk(f)
    ensures GetField(KindOf(f), PutField(f) + rest) == Ok((f, rest))
  {
    if f.Str? {
      CStringReads(f.s, rest);
    }
  }

  lemma {:induction false} FieldPrints(k: Kind, b: bytes)
    requires GetField(k, b).Ok?
    ensures var (f, rest) := GetField(k, b).value; b == PutField(f) + rest && FieldOk(f) && KindOf(f) == k
  {
    if k.CString? {
      CStringPrints(b);
    }
  }

  lemma {:induction false} FieldsRead(fs: seq<Field>, rest: bytes)
    requires FieldsOk(fs)
    ensures GetFields(KindsOf(fs), PutFields(fs) + rest) == Ok((fs, rest))
  {
    if fs == [] {
      assert PutFields(fs) + rest == rest;
    } else {
      var tail := PutFields(fs[1..]) + rest;
      assert PutFields(fs) + rest == PutField(fs[0]) + tail;
      FieldReads(fs[0], tail);
      FieldsRead(fs[1..], rest);
      assert KindsOf(fs)[1..] == KindsOf(fs[1..]);
      assert [fs[0]] + fs[1..] == fs;
    }
  }

  lemma {:induction false} FieldsPrint(ks: seq<Kind>, b: bytes)
    requires GetFields(ks, b).Ok?
    ensures var (fs, rest) := GetFields(ks, b).value; b == PutFields(fs) + rest && FieldsOk(fs)
  {
    if ks == [] {
      assert PutFields([]) + b == b;
    } else {
      FieldPrints(ks[0], b);
      var (f, b1) := GetField(ks[0], b).value;
      FieldsPrint(ks[1..], b1);
      var (fs, rest) := GetFields(ks[1..], b1).value;
      ConsPrints(f, fs, rest);
    }
  }

  lemma {:induction false} ConsPrints(f: Field, fs: seq<Field>, rest: bytes)
    ensures PutFields([f] + fs) + rest == PutField(f) + (PutFields(fs) + rest)
  {
    assert ([f] + fs)[1..] == fs;
  }

  // ----- optional parameters -----

  /** One printed triple, read back in front of whatever follows it. */
  lemma {:induction false} TlvReads(t: Tlv, rest: bytes)
    requires |t.value| < 0x1_0000
    ensures
      var b := PutTlv(t) + rest;
      |b| >= 4 && Get16(b) == t.tag && Get16(b[2..]) == |t.value| && GetOctets(b[4..], |t.value|) == Ok((t.value, rest))
  {
    var b := PutTlv(t) + rest;
    var body := t.value + rest;
    var sized := Put16(|t.value|) + body;
    assert b == Put16(t.tag) + sized;
    Get16Put16(t.tag, sized);
    assert b[2..] == sized;
    Get16Put16(|t.value|, body);
    assert b[4..] == body;
    assert body[..|t.value|] == t.value && body[|t.value|..] == rest;
  }

  lemma {:induction false} TlvsRead(ts: seq<Tlv>, have: nat)
    requires TlvsOk(ts) && have + |ts| <= MAX_TLVS
    ensures GetTlvs(PutTlvs(ts), have) == Ok(ts)
  {
    if ts != [] {
      TlvReads(ts[0], PutTlvs(ts[1..]));
      TlvsRead(ts[1..], have + 1);
      assert [ts[0]] + ts[1..] == ts;
    }
  }

  /** One triple parsed is one triple printed, in front of what follows it. */
  lemma {:induction false} TlvPrints(b: bytes)
    requires |b| >= 4 && GetOctets(b[4..], Get16(b[2..])).Ok?
    ensures
      var (value, rest) := GetOctets(b[4..], Get16(b[2..])).value;
      b == PutTlv(Tlv(Get16(b), value)) + rest && |value| < 0x1_0000
  {
    var (value, rest) := GetOctets(b[4..], Get16(b[2..])).value;
    Put16Get16(b);
    Put16Get16(b[2..]);
    assert b[4..] == value + rest;
    assert b == b[..2] + b[2..][..2] + b[4..];
  }

  lemma {:induction false} TlvsPrint(b: bytes, have: nat)
    requires GetTlvs(b, have).Ok? && have <= MAX_TLVS
    ensures var ts := GetTlvs(b, have).value; b == PutTlvs(ts) && TlvsOk(ts) && have + |ts| <= MAX_TLVS
    decreases |b|
  {
    if b != [] {
      var (value, rest) := GetOctets(b[4..], Get16(b[2..])).value;
      TlvsPrint(rest, have + 1);
      TlvPrints(b);
      ConsTlvs(Tlv(Get16(b), value), GetTlvs(rest, have + 1).value);
    }
  }

  lemma {:induction false} ConsTlvs(t: Tlv, ts: seq<Tlv>)
    ensures PutTlvs([t] + ts) == PutTlv(t) + PutTlvs(ts)
    ensures TlvsOk(ts) && |t.value| < 0x1_0000 ==> TlvsOk([t] + ts)
  {
    assert ([t] + ts)[1..] == ts;
  }

  // ----- bodies -----

  lemma {:induction false} TailReads(text: bytes, tlvs: seq<Tlv>)
    requires |text| <= MAX_SHORT_MESSAGE_LEN && |tlvs| <= MAX_TLVS && TlvsOk(tlvs)
    ensures
      var tail := [|text|] + (text + PutTlvs(tlvs));
      GetOctets(tail[1..], tail[0]) == Ok((text, PutTlvs(tlvs))) && GetTlvs(PutTlvs(tlvs), 0) == Ok(tlvs)
  {
    var tail := [|text|] + (text + PutTlvs(tlvs));
    assert tail[1..] == text + PutTlvs(tlvs);
    assert tail[1..][..|text|] == text && tail[1..][|text|..] == PutTlvs(tlvs);
    TlvsRead(tlvs, 0);
  }

  lemma {:induction false} MessageOfFields(m: Message)
    ensures KindsOf(MessageFields(m)) == MESSAGE_KINDS && MessageOf(MessageFields(m), m.shortMessage, m.tlvs) == m
  {
  }

  lemma {:induction false} MessageReads(m: Message)
    requires BodyOk(Sm(m))
    ensures DecodeMessage(Marshal(Sm(m))) == Ok(Sm(m))
  {
    var fs, text := MessageFields(m), m.shortMessage;
    FieldsRead(fs, [|text|] + (text + PutTlvs(m.tlvs)));
    TailReads(text, m.tlvs);
    MessageOfFields(m);
  }

  /** What follows the mandatory fields of a decoded message: a length octet, the text, the optional parameters. */
  lemma {:induction false} TailPrints(b: bytes)
    requires b != [] && GetOctets(b[1..], b[0]).Ok? && GetTlvs(GetOctets(b[1..], b[0]).value.1, 0).Ok?
    ensures
      var (text, rest) := GetOctets(b[1..], b[0]).value;
      var tlvs := GetTlvs(rest, 0).value;
      |tlvs| <= MAX_TLVS && TlvsOk(tlvs) && b == [|text|] + (text + PutTlvs(tlvs))
  {
    var (text, rest) := GetOctets(b[1..], b[0]).value;
    TlvsPrint(rest, 0);
    assert b == [b[0]] + b[1..] && b[1..] == text + rest;
  }

  lemma {:induction false} MessagePrints(b: bytes)
    requires DecodeMessage(b).Ok?
    ensures Marshal(DecodeMessage(b).value) == b && BodyOk(DecodeMessage(b).value)
  {
    FieldsPrint(MESSAGE_KINDS, b);
    FieldsHaveKinds(MESSAGE_KINDS, b);
    var (fs, b1) := GetFields(MESSAGE_KINDS, b).value;
    var (text, b3) := GetOctets(b1[1..], b1[0]).value;
    TailPrints(b1);
    FieldsOfMessage(fs, text, GetTlvs(b3, 0).value);
  }

  lemma {:induction false} FieldsOfMessage(fs: seq<Field>, text: bytes, tlvs: seq<Tlv>)
    requires KindsOf(fs) == MESSAGE_KINDS
    ensures MessageFields(MessageOf(fs, text, tlvs)) == fs
  {
    var gs := MessageFields(MessageOf(fs, text, tlvs));
    assert forall i :: 0 <= i < 16 ==> KindOf(fs[i]) == MESSAGE_KINDS[i];
    assert |fs| == |gs| == 16;
    assert fs[0] == gs[0] && fs[1] == gs[1] && fs[2] == gs[2] && fs[3] == gs[3];
    assert fs[4] == gs[4] && fs[5] == gs[5] && fs[6] == gs[6] && fs[7] == gs[7];
    assert fs[8] == gs[8] && fs[9] == gs[9] && fs[10] == gs[10] && fs[11] == gs[11];
    assert fs[12] == gs[12] && fs[13] == gs[13] && fs[14] == gs[14] && fs[15] == gs[15];
  }

  lemma {:induction false} BindReads(body: Body, rest: bytes)
    requires body.Bind? && BodyOk(body)
    ensures DecodeBind(Marshal(body) + rest) == Ok(body)
  {
    FieldsRead(BindFields(body), rest);
    assert BindOf(BindFields(body)) == body;
  }

  lemma {:induction false} BindPrints(b: bytes)
    requires DecodeBind(b).Ok?
    ensures BodyOk(DecodeBind(b).value) && Marshal(DecodeBind(b).value) <= b
  {
    FieldsPrint(BIND_KINDS, b);
    FieldsHaveKinds(BIND_KINDS, b);
    FieldsOfBind(GetFields(BIND_KINDS, b).value.0);
  }

  lemma {:induction false} FieldsOfBind(fs: seq<Field>)
    requires KindsOf(fs) == BIND_KINDS
    ensures BindFields(BindOf(fs)) == fs
  {
    var gs := BindFields(BindOf(fs));
    assert forall i :: 0 <= i < 7 ==> KindOf(fs[i]) == BIND_KINDS[i];
    assert fs == gs;
  }

  lemma {:induction false} BindRespReads(id: bytes, tlvs: seq<Tlv>)
    requires BodyOk(BindResp(id, tlvs))
    ensures DecodeBindResp(Marshal(BindResp(id, tlvs))) == Ok(BindResp(id, tlvs))
  {
    CStringReads(id, PutTlvs(tlvs));
    TlvsRead(tlvs, 0);
  }

  lemma {:induction false} BindRespPrints(b: bytes)
    requires DecodeBindResp(b).Ok? && b != []
    ensures BodyOk(DecodeBindResp(b).value) && Marshal(DecodeBindResp(b).value) == b
  {
    CStringPrints(b);
    TlvsPrint(GetCString(b).value.1, 0);
  }

  lemma {:induction false} SubmitRespReads(id: bytes)
    requires StringOk(id)
    ensures DecodeSubmitResp(Marshal(SubmitResp(id))) == Ok(SubmitResp(id))
  {
    CStringReads(id, []);
    assert id + [0] + [] == id + [0];
  }

  /** A printed body parses back to itself when it is well formed. */
  lemma {:induction false} BodyReads(id: u32, body: Option<Body>)
    requires BodyFits(id, body) && (body.Some? ==> BodyOk(body.value))
    ensures DecodeBody(id, MarshalOption(body)) == Ok(body)
  {
    if body.Some? {
      match body.value
      case Bind(_, _, _, _, _, _, _) =>
        BindReads(body.value, []);
        assert Marshal(body.value) + [] == Marshal(body.value);
      case BindResp(id, tlvs) => BindRespReads(id, tlvs);
      case Sm(m) => MessageReads(m);
      case SubmitResp(id) => SubmitRespReads(id);
    }
  }

  /** A response whose body is absent: an error response carries its header only. */
  predicate BareResponse(id: u32, b: bytes) {
    b == [] && (IsBindResp(id) || IsSubmitResp(id))
  }

  /** A parsed body is well formed, and prints as the octets it was parsed from, up to ignored trailing ones. */
  lemma {:induction false} BodyPrints(id: u32, b: bytes)
    requires DecodeBody(id, b).Ok?
    ensures
      var body := DecodeBody(id, b).value;
      && BodyFits(id, body) && (body.Some? ==> BodyOk(body.value))
      && (if BareResponse(id, b) then MarshalOption(body) == [0] else MarshalOption(body) <= b)
      && (IsMessage(id) ==> MarshalOption(body) == b)
  {
    if IsBind(id) {
      BindPrints(b);
    } else if IsBindResp(id) && b != [] {
      BindRespPrints(b);
    } else if IsMessage(id) {
      MessagePrints(b);
    } else if IsSubmitResp(id) && b != [] {
      CStringPrints(b);
    }
  }

  // ----- whole PDUs -----

  /** What ReadPDU hands on: a frame whose first field counts its octets. */
  predicate Framed(frame: bytes) {
    HEADER_LEN <= |frame| <= MAX_PDU_LEN && Get32(frame) == |frame|
  }

  /** The four header fields and the body of a frame put together. */
  lemma {:induction false} FrameFields(length: u32, id: u32, status: u32, sequence: u32, body: bytes)
    ensures
      var f := Put32(length) + Put32(id) + Put32(status) + Put32(sequence) + body;
      && |f| == HEADER_LEN + |body| && f[HEADER_LEN..] == body
      && Get32(f) == length && Get32(f[4..]) == id && Get32(f[8..]) == status && Get32(f[12..]) == sequence
  {
    var f := Put32(length) + Put32(id) + Put32(status) + Put32(sequence) + body;
    var tail3 := Put32(sequence) + body;
    var tail2 := Put32(status) + tail3;
    var tail1 := Put32(id) + tail2;
    assert f == Put32(length) + tail1;
    Get32Put32(length, tail1);
    assert f[4..] == tail1;
    Get32Put32(id, tail2);
    assert f[8..] == tail2;
    Get32Put32(status, tail3);
    assert f[12..] == tail3;
    Get32Put32(sequence, body);
  }

  lemma {:induction false} HeaderFields(p: Pdu)
    requires Encode(p).Ok?
    ensures
      var f := Encode(p).value;
      && Framed(f) && f[HEADER_LEN..] == MarshalOption(p.body)
      && Get32(f[4..]) == p.commandId && Get32(f[8..]) == p.commandStatus && Get32(f[12..]) == p.sequenceNumber
  {
    var body := MarshalOption(p.body);
    FrameFields(HEADER_LEN + |body|, p.commandId, p.commandStatus, p.sequenceNumber, body);
  }

  /** Decoding undoes encoding exactly for the well-formed PDUs. */
  lemma {:induction false} RoundTripIffWellFormed(p: Pdu)
    requires Encode(p).Ok?
    ensures Decode(Encode(p).value) == Ok(p) <==> WellFormed(p)
  {
    HeaderFields(p);
    var f := Encode(p).value;
    if WellFormed(p) {
      BodyReads(p.commandId, p.body);
    } else if Decode(f) == Ok(p) {
      BodyPrints(p.commandId, f[HEADER_LEN..]);
    }
  }

  /** Every accepted frame re-encodes, and decodes again to the same PDU. */
  lemma {:induction false} AcceptedFrameReencodes(frame: bytes)
    requires Framed(frame) && Decode(frame).Ok?
    ensures var p := Decode(frame).value; Encode(p).Ok? && Decode(Encode(p).value) == Ok(p)
  {
    var p := Decode(frame).value;
    BodyPrints(p.commandId, frame[HEADER_LEN..]);
    RoundTripIffWellFormed(p);
  }

  /** An accepted body prints with the length it was parsed from exactly when it prints as those octets. */
  lemma {:induction false} CanonicalIffSameLength(frame: bytes)
    requires Framed(frame) && Decode(frame).Ok?
    ensures
      var p := Decode(frame).value;
      Encode(p) == Ok(frame) <==> HEADER_LEN + |MarshalOption(p.body)| == |frame|
  {
    var p := Decode(frame).value;
    var b := frame[HEADER_LEN..];
    BodyPrints(p.commandId, b);
    if HEADER_LEN + |MarshalOption(p.body)| == |frame| {
      assert MarshalOption(p.body) == b;
      Put32Get32(frame);
      Put32Get32(frame[4..]);
      Put32Get32(frame[8..]);
      Put32Get32(frame[12..]);
      assert frame == frame[..4] + frame[4..][..4] + frame[8..][..4] + frame[12..][..4] + b;
    }
  }

  /** The first NUL a bounded string read finds is the last octet of the frame. */
  predicate EndsWithItsString(b: bytes) {
    b != [] && FindNul(b, 0, if |b| < MAX_C_OCTET_LEN then |b| else MAX_C_OCTET_LEN) == Some(|b| - 1)
  }

  /** The body carries nothing the decoder passes over, and is not absent where its encoding is not. */
  predicate NothingPassedOver(id: u32, b: bytes) {
    if IsMessage(id) then true
    else if IsBind(id) then GetFields(BIND_KINDS, b).Ok? && GetFields(BIND_KINDS, b).value.1 == []
    else if IsBindResp(id) then b != []
    else if IsSubmitResp(id) then EndsWithItsString(b)
    else b == []
  }

  lemma {:induction false} BindPrintsWhole(b: bytes)
    requires DecodeBind(b).Ok?
    ensures Marshal(DecodeBind(b).value) == b <==> GetFields(BIND_KINDS, b).value.1 == []
  {
    FieldsPrint(BIND_KINDS, b);
    FieldsHaveKinds(BIND_KINDS, b);
    var (fs, rest) := GetFields(BIND_KINDS, b).value;
    FieldsOfBind(fs);
    assert b == PutFields(fs) + rest;
  }

  lemma {:induction false} SubmitRespPrintsWhole(b: bytes)
    requires DecodeSubmitResp(b).Ok?
    ensures Marshal(DecodeSubmitResp(b).value) == b <==> EndsWithItsString(b)
  {
    if b != [] {
      CStringPrints(b);
      var (id, rest) := GetCString(b).value;
      assert b == id + [0] + rest;
    }
  }

  /**
    Re-encoding gives an accepted frame back if and only if its body has nothing past what the decoder
    reads: for binds nothing after the last field, for submit responses nothing after the id, for
    header-only commands no body at all, for bind responses a body at all; messages always qualify.
  */
  lemma {:induction false} CanonicalIffNothingPassedOver(frame: bytes)
    requires Framed(frame) && Decode(frame).Ok?
    ensures Encode(Decode(frame).value) == Ok(frame) <==> NothingPassedOver(Get32(frame[4..]), frame[HEADER_LEN..])
  {
    var id, b := Get32(frame[4..]), frame[HEADER_LEN..];
    var printed := MarshalOption(Decode(frame).value.body);
    CanonicalIffSameLength(frame);
    BodyPrints(id, b);
    if IsBind(id) {
      BindPrintsWhole(b);
    } else if IsBindResp(id) && b != [] {
      BindRespPrints(b);
    } else if IsSubmitResp(id) {
      SubmitRespPrintsWhole(b);
    }
    assert |printed| == |b| && printed <= b ==> printed == b;
  }

  /** An accepted submit_sm or deliver_sm frame is canonical: it re-encodes octet for octet. */
  lemma {:induction false} MessageFrameIsCanonical(frame: bytes)
    requires Framed(frame) && Decode(frame).Ok? && IsMessage(Decode(frame).value.commandId)
    ensures Encode(Decode(frame).value) == Ok(frame)
  {
    BodyPrints(Decode(frame).value.commandId, frame[HEADER_LEN..]);
    CanonicalIffSameLength(frame);
  }

  /** An enquire_link with one octet after its header: accepted, and re-encoded without it. */
  lemma {:induction false} TrailingOctetDropped(status: u32, sequence: u32)
    ensures
      var frame := Put32(HEADER_LEN + 1) + Put32(ENQUIRE_LINK) + Put32(status) + Put32(sequence) + [0];
      && Framed(frame) && Decode(frame) == Ok(Pdu(ENQUIRE_LINK, status, sequence, None))
      && Encode(Decode(frame).value) != Ok(frame)
  {
    var frame := Put32(HEADER_LEN + 1) + Put32(ENQUIRE_LINK) + Put32(status) + Put32(sequence) + [0];
    FrameFields(HEADER_LEN + 1, ENQUIRE_LINK, status, sequence, [0]);
    CanonicalIffNothingPassedOver(frame);
  }

  /** A submit_sm_resp of a header alone: accepted with an empty id, and re-encoded with its terminator. */
  lemma {:induction false} BareResponseGrows(status: u32, sequence: u32)
    ensures
      var frame := Put32(HEADER_LEN) + Put32(RESPONSE_BIT + SUBMIT_SM) + Put32(status) + Put32(sequence) + [];
      && Framed(frame) && Decode(frame) == Ok(Pdu(RESPONSE_BIT + SUBMIT_SM, status, sequence, Some(SubmitResp([]))))
      && Encode(Decode(frame).value) != Ok(frame)
  {
    var frame := Put32(HEADER_LEN) + Put32(RESPONSE_BIT + SUBMIT_SM) + Put32(status) + Put32(sequence) + [];
    FrameFields(HEADER_LEN, RESPONSE_BIT + SUBMIT_SM, status, sequence, []);
    CanonicalIffNothingPassedOver(frame);
  }

  // ----- which commands are known -----

  lemma {:induction false} FieldsKnow(ks: seq<Kind>, b: bytes)
    ensures GetFields(ks, b) != Err(UnknownCommand)
  {
    if ks != [] && GetField(ks[0], b).Ok? {
      FieldsKnow(ks[1..], GetField(ks[0], b).value.1);
    }
  }

  lemma {:induction false} TlvsKnow(b: bytes, have: nat)
    ensures GetTlvs(b, have) != Err(UnknownCommand)
    decreases |b|
  {
    if |b| >= 4 && have < MAX_TLVS && GetOctets(b[4..], Get16(b[2..])).Ok? {
      TlvsKnow(GetOctets(b[4..], Get16(b[2..])).value.1, have + 1);
    }
  }

  /** Only a command id can be unknown, not a body. */
  lemma {:induction false} BodiesKnow(b: bytes)
    ensures DecodeBind(b) != Err(UnknownCommand) && DecodeBindResp(b) != Err(UnknownCommand)
    ensures DecodeMessage(b) != Err(UnknownCommand) && DecodeSubmitResp(b) != Err(UnknownCommand)
  {
    FieldsKnow(BIND_KINDS, b);
    FieldsKnow(MESSAGE_KINDS, b);
    if GetCString(b).Ok? {
      TlvsKnow(GetCString(b).value.1, 0);
    }
    if GetFields(MESSAGE_KINDS, b).Ok? {
      var b1 := GetFields(MESSAGE_KINDS, b).value.1;
      if b1 != [] && GetOctets(b1[1..], b1[0]).Ok? {
        TlvsKnow(GetOctets(b1[1..], b1[0]).value.1, 0);
      }
    }
  }

  /**
    The command ids of SMPP v3.4, section 5.1.2.1, that are understood, by number, and the body each
    carries; every other id, and no frame of one of these, is refused as unknown.
  */
  lemma {:induction false} KnownCommands(frame: bytes)
    requires |frame| >= 16
    ensures
      var id := Get32(frame[4..]);
      Decode(frame) == Err(UnknownCommand) <==>
        id !in {0x0000_0001, 0x0000_0002, 0x0000_0004, 0x0000_0005, 0x0000_0006, 0x0000_0009, 0x0000_0015,
                0x8000_0000, 0x8000_0001, 0x8000_0002, 0x8000_0004, 0x8000_0005, 0x8000_0006, 0x8000_0009, 0x8000_0015}
    ensures
      var id, r := Get32(frame[4..]), Decode(frame);
      r.Ok? ==>
        && r.value.commandId == id
        && (id in {0x0000_0001, 0x0000_0002, 0x0000_0009} <==> r.value.body.Some? && r.value.body.value.Bind?)
        && (id in {0x8000_0001, 0x8000_0002, 0x8000_0009} <==> r.value.body.Some? && r.value.body.value.BindResp?)
        && (id in {0x0000_0004, 0x0000_0005} <==> r.value.body.Some? && r.value.body.value.Sm?)
        && (id in {0x8000_0004, 0x8000_0005} <==> r.value.body.Some? && r.value.body.value.SubmitResp?)
    ensures
      Get32(frame[4..]) in {0x0000_0006, 0x8000_0006, 0x0000_0015, 0x8000_0015, 0x8000_0000} ==> Decode(frame).Ok?
  {
    BodiesKnow(frame[HEADER_LEN..]);
  }

  // ----- where each field is on the wire -----

  lemma {:induction false} FieldsJoin(a: seq<Field>, b: seq<Field>)
    ensures PutFields(a + b) == PutFields(a) + PutFields(b)
  {
    if a == [] {
      assert a + b == b;
    } else {
      assert (a + b)[1..] == a[1..] + b;
      FieldsJoin(a[1..], b);
    }
  }

  lemma {:induction false} OneField(f: Field)
    ensures PutFields([f]) == PutField(f)
  {
    assert [f][1..] == [];
    assert PutField(f) + [] == PutField(f);
  }

  /** A string ends on a NUL; the octets that follow it stand behind. */
  lemma {:induction false} StringThen(s: bytes, x: byte, y: byte)
    ensures PutFields([Str(s)]) == s + [0]
    ensures PutFields([Str(s), Oct(x), Oct(y)]) == s + [0, x, y]
  {
    OneField(Str(s));
    OneField(Oct(x));
    OneField(Oct(y));
    FieldsJoin([Str(s)], [Oct(x)]);
    FieldsJoin([Str(s)] + [Oct(x)], [Oct(y)]);
    assert [Str(s)] + [Oct(x)] + [Oct(y)] == [Str(s), Oct(x), Oct(y)];
  }

  lemma {:induction false} StringThenMore(s: bytes, w: byte, x: byte, y: byte, z: byte)
    ensures PutFields([Str(s), Oct(w), Oct(x), Oct(y)]) == s + [0, w, x, y]
    ensures PutFields([Str(s), Oct(w), Oct(x), Oct(y), Oct(z)]) == s + [0, w, x, y, z]
  {
    StringThen(s, w, x);
    var one, two := [Oct(y)], [Oct(y), Oct(z)];
    assert one[1..] == [] && two[1..] == [Oct(z)] && two[1..][1..] == [];
    FieldsJoin([Str(s), Oct(w), Oct(x)], one);
    FieldsJoin([Str(s), Oct(w), Oct(x)], two);
    assert [Str(s), Oct(w), Oct(x)] + one == [Str(s), Oct(w), Oct(x), Oct(y)];
    assert [Str(s), Oct(w), Oct(x)] + two == [Str(s), Oct(w), Oct(x), Oct(y), Oct(z)];
    assert PutFields(one) == [y] && PutFields(two) == [y, z];
  }

  /** The body of a bind, field by field, section 4.1 of SMPP v3.4. */
  lemma {:induction false} BindLayout(b: Body)
    requires b.Bind?
    ensures Marshal(b) ==
      (b.systemId + [0]) + (b.password + [0]) + (b.systemType + [0, b.interfaceVersion, b.addrTon, b.addrNpi]) + (b.addressRange + [0])
  {
    StringThen(b.systemId, 0, 0);
    StringThen(b.password, 0, 0);
    StringThenMore(b.systemType, b.interfaceVersion, b.addrTon, b.addrNpi, 0);
    StringThen(b.addressRange, 0, 0);
    var f1, f2, f4 := [Str(b.systemId)], [Str(b.password)], [Str(b.addressRange)];
    var f3 := [Str(b.systemType), Oct(b.interfaceVersion), Oct(b.addrTon), Oct(b.addrNpi)];
    FieldsJoin(f1, f2);
    FieldsJoin(f1 + f2, f3);
    FieldsJoin(f1 + f2 + f3, f4);
    assert BindFields(b) == f1 + f2 + f3 + f4;
  }

  /** The body of a submit_sm or deliver_sm, field by field, sections 4.4.1 and 4.6.1 of SMPP v3.4. */
  lemma {:induction false} MessageLayout(m: Message)
    requires |m.shortMessage| <= MAX_SHORT_MESSAGE_LEN
    ensures Marshal(Sm(m)) ==
      (m.serviceType + [0, m.sourceTon, m.sourceNpi]) + (m.sourceAddr + [0, m.destTon, m.destNpi])
      + (m.destAddr + [0, m.esmClass, m.protocolId, m.priorityFlag])
      + (m.scheduleDeliveryTime + [0])
      + (m.validityPeriod + [0, m.registeredDelivery, m.replaceIfPresent, m.dataCoding, m.smDefaultMsgId])
      + ([|m.shortMessage|] + (m.shortMessage + PutTlvs(m.tlvs)))
  {
    StringThen(m.serviceType, m.sourceTon, m.sourceNpi);
    StringThen(m.sourceAddr, m.destTon, m.destNpi);
    StringThenMore(m.destAddr, m.esmClass, m.protocolId, m.priorityFlag, 0);
    StringThen(m.scheduleDeliveryTime, 0, 0);
    StringThenMore(m.validityPeriod, m.registeredDelivery, m.replaceIfPresent, m.dataCoding, m.smDefaultMsgId);
    MessageGroups(m);
  }

  lemma {:induction false} FiveJoin(f1: seq<Field>, f2: seq<Field>, f3: seq<Field>, f4: seq<Field>, f5: seq<Field>)
    ensures PutFields(f1 + f2 + f3 + f4 + f5) == PutFields(f1) + PutFields(f2) + PutFields(f3) + PutFields(f4) + PutFields(f5)
  {
    FieldsJoin(f1, f2);
    FieldsJoin(f1 + f2, f3);
    FieldsJoin(f1 + f2 + f3, f4);
    FieldsJoin(f1 + f2 + f3 + f4, f5);
  }

  lemma {:induction false} MessageGroups(m: Message)
    ensures PutFields(MessageFields(m)) ==
      PutFields([Str(m.serviceType), Oct(m.sourceTon), Oct(m.sourceNpi)])
      + PutFields([Str(m.sourceAddr), Oct(m.destTon), Oct(m.destNpi)])
      + PutFields([Str(m.destAddr), Oct(m.esmClass), Oct(m.protocolId), Oct(m.priorityFlag)])
      + PutFields([Str(m.scheduleDeliveryTime)])
      + PutFields([Str(m.validityPeriod), Oct(m.registeredDelivery), Oct(m.replaceIfPresent), Oct(m.dataCoding), Oct(m.smDefaultMsgId)])
  {
    FiveJoin([Str(m.serviceType), Oct(m.sourceTon), Oct(m.sourceNpi)],
             [Str(m.sourceAddr), Oct(m.destTon), Oct(m.destNpi)],
             [Str(m.destAddr), Oct(m.esmClass), Oct(m.protocolId), Oct(m.priorityFlag)],
             [Str(m.scheduleDeliveryTime)],
             [Str(m.validityPeriod), Oct(m.registeredDelivery), Oct(m.replaceIfPresent), Oct(m.dataCoding), Oct(m.smDefaultMsgId)]);
    FieldsGrouped(m);
  }

  lemma {:induction false} FieldsGrouped(m: Message)
    ensures MessageFields(m) ==
      [Str(m.serviceType), Oct(m.sourceTon), Oct(m.sourceNpi)] + [Str(m.sourceAddr), Oct(m.destTon), Oct(m.destNpi)]
      + [Str(m.destAddr), Oct(m.esmClass), Oct(m.protocolId), Oct(m.priorityFlag)] + [Str(m.scheduleDeliveryTime)]
      + [Str(m.validityPeriod), Oct(m.registeredDelivery), Oct(m.replaceIfPresent), Oct(m.dataCoding), Oct(m.smDefaultMsgId)]
  {
  }

  /** Integers go most significant octet first. */
  lemma {:induction false} IntegerLayout(n: u32)
    ensures Put32(n) == [n / 0x100_0000, n / 0x1_0000 % 0x100, n / 0x100 % 0x100, n % 0x100]
  {
    HighOctets(n);
    LowOctets(n);
  }

  lemma {:induction false} HighOctets(n: u32)
    ensures n / 0x1_0000 / 0x100 == n / 0x100_0000
  {
  }

  lemma {:induction false} LowOctets(n: u32)
    ensures n % 0x1_0000 / 0x100 == n / 0x100 % 0x100 && n % 0x1_0000 % 0x100 == n % 0x100
  {
  }

  /** An optional parameter is its tag, its length and its value. */
  lemma {:induction false} TlvLayout(t: Tlv)
    requires |t.value| < 0x1_0000
    ensures PutTlv(t) == [t.tag / 0x100, t.tag % 0x100, |t.value| / 0x100, |t.value| % 0x100] + t.value
  {
  }
}
