/**
  The cursor that walks a frame and the buffer a body is appended to, in place. Every accessor
  checks what is left before it reads; each method is tied to the parser or printer of module Smpp.
*/
module SmppCursor {
  import opened Wrappers
  import opened Smpp
  import opened SmppTheorems

  /** `r` and the octets left after a read are what the parser says; a failed read consumes nothing. */
  predicate Follows<T(==)>(parsed: Parsed<T>, r: Result<T, Error>, before: bytes, after: bytes) {
    if parsed.Ok? then r == Ok(parsed.value.0) && after == parsed.value.1
    else r == Err(parsed.error) && after == before
  }

  /** The parse of `b` by `ks` when `done` was read just before. */
  ghost function FieldsAfter(done: seq<Field>, ks: seq<Kind>, b: bytes): Parsed<seq<Field>> {
    var left := GetFields(ks, b);
    if left.Ok? then Ok((done + left.value.0, left.value.1)) else left
  }

  lemma {:induction false} FieldsAfterOne(done: seq<Field>, ks: seq<Kind>, b: bytes)
    requires ks != []
    ensures
      var f := GetField(ks[0], b);
      FieldsAfter(done, ks, b) == if f.Ok? then FieldsAfter(done + [f.value.0], ks[1..], f.value.1) else Err(f.error)
  {
    var left := GetFields(ks, b);
    if left.Ok? {
      var f := GetField(ks[0], b).value.0;
      assert done + left.value.0 == done + [f] + left.value.0[1..];
    }
  }

  /** The parse of `b` as optional parameters when `done` was read just before. */
  ghost function TlvsAfter(done: seq<Tlv>, b: bytes): Result<seq<Tlv>, Error> {
    var left := GetTlvs(b, |done|);
    if left.Ok? then Ok(done + left.value) else left
  }

  lemma {:induction false} TlvsAfterOne(done: seq<Tlv>, b: bytes)
    requires |b| >= 4 && |done| < MAX_TLVS
    ensures
      var v := GetOctets(b[4..], Get16(b[2..]));
      TlvsAfter(done, b) == if v.Ok? then TlvsAfter(done + [Tlv(Get16(b), v.value.0)], v.value.1) else Err(v.error)
  {
    var left := GetTlvs(b, |done|);
    if left.Ok? {
      assert done + left.value == done + [left.value[0]] + left.value[1..];
    }
  }

  /** No NUL seen between the cursor and `i`. */
  predicate NoneYet(b: bytes, pos: nat, i: nat)
    requires i <= |b|
  {
    forall k :: pos <= k < i ==> b[k] != 0
  }

  /** The scan stopped at a NUL: the octets before it are the string parsed from the rest. */
  lemma {:induction false} FoundAt(b: bytes, pos: nat, i: nat, limit: nat)
    requires pos <= i < limit <= |b| && b[i] == 0 && NoneYet(b, pos, i)
    requires limit == if |b| < pos + MAX_C_OCTET_LEN then |b| else pos + MAX_C_OCTET_LEN
    ensures GetCString(b[pos..]) == Ok((b[pos..i], b[i + 1..]))
  {
    var rest, k := b[pos..], i - pos;
    assert rest[k] == 0 && forall j :: 0 <= j < k ==> rest[j] == b[pos + j];
    assert 0 !in rest[0..k];
    FirstNul(rest, 0, limit - pos, k);
    assert rest[..k] == b[pos..i] && rest[k + 1..] == b[i + 1..];
  }

  lemma {:induction false} NotFound(b: bytes, pos: nat, limit: nat)
    requires pos <= limit <= |b| && NoneYet(b, pos, limit)
    requires limit == if |b| < pos + MAX_C_OCTET_LEN then |b| else pos + MAX_C_OCTET_LEN
    ensures GetCString(b[pos..]) == Err(Unterminated)
  {
    var rest := b[pos..];
    assert forall j :: 0 <= j < limit - pos ==> rest[j] == b[pos + j];
    assert 0 !in rest[0..limit - pos];
    NoNul(rest, 0, limit - pos);
  }

  class Reader {
    const b: bytes
    var pos: nat

    ghost predicate Valid()
      reads this
    {
      pos <= |b|
    }

    ghost function Rest(): bytes
      reads this
      requires Valid()
    {
      b[pos..]
    }

    constructor (frame: bytes, at: nat)
      requires at <= |frame|
      ensures Valid() && b == frame && pos == at
    {
      b := frame;
      pos := at;
    }

    method Byte() returns (r: Result<byte, Error>)
      requires Valid()
      modifies this
      ensures Valid() && Follows(GetByte(old(Rest())), r, old(Rest()), Rest())
    {
      if pos + 1 > |b| {
        return Err(Truncated);
      }
      r := Ok(b[pos]);
      pos := pos + 1;
    }

    method COctetString() returns (r: Result<bytes, Error>)
      requires Valid()
      modifies this
      ensures Valid() && Follows(GetCString(old(Rest())), r, old(Rest()), Rest())
    {
      var limit := if |b| < pos + MAX_C_OCTET_LEN then |b| else pos + MAX_C_OCTET_LEN;
      var i := pos;
      while i < limit
        invariant pos <= i <= limit && pos == old(pos)
        invariant NoneYet(b, pos, i)
      {
        if b[i] == 0 {
          FoundAt(b, pos, i, limit);
          r := Ok(b[pos..i]);
          pos := i + 1;
          return;
        }
        i := i + 1;
      }
      NotFound(b, pos, limit);
      return Err(Unterminated);
    }

    method Octets(n: nat) returns (r: Result<bytes, Error>)
      requires Valid()
      modifies this
      ensures Valid() && Follows(GetOctets(old(Rest()), n), r, old(Rest()), Rest())
    {
      if pos + n > |b| {
        return Err(Truncated);
      }
      assert Rest()[..n] == b[pos..pos + n] && Rest()[n..] == b[pos + n..];
      r := Ok(b[pos..pos + n]);
      pos := pos + n;
    }

    /** Reads one field after the other and stops at the first that fails. */
    method Fields(kinds: seq<Kind>) returns (r: Result<seq<Field>, Error>)
      requires Valid()
      modifies this
      ensures Valid()
      ensures
        var parsed := GetFields(kinds, old(Rest()));
        if parsed.Ok? then r == Ok(parsed.value.0) && Rest() == parsed.value.1 else r == Err(parsed.error)
    {
      ghost var start := Rest();
      var fs: seq<Field> := [];
      var i := 0;
      assert kinds[0..] == kinds;
      assert forall vs: seq<Field> :: fs + vs == vs;
      while i < |kinds|
        invariant 0 <= i <= |kinds| && Valid()
        invariant GetFields(kinds, start) == FieldsAfter(fs, kinds[i..], Rest())
      {
        FieldsAfterOne(fs, kinds[i..], Rest());
        assert kinds[i..][1..] == kinds[i + 1..];
        match kinds[i] {
          case CString =>
            var s := COctetString();
            if s.Err? {
              return Err(s.error);
            }
            fs := fs + [Str(s.value)];
          case Octet =>
            var o := Byte();
            if o.Err? {
              return Err(o.error);
            }
            fs := fs + [Oct(o.value)];
        }
        i := i + 1;
      }
      assert fs + [] == fs;
      return Ok(fs);
    }

    method Tlvs() returns (r: Result<seq<Tlv>, Error>)
      requires Valid()
      modifies this
      ensures r == GetTlvs(old(Rest()), 0)
    {
      ghost var start := Rest();
      var out: seq<Tlv> := [];
      assert forall ts: seq<Tlv> :: out + ts == ts;
      while pos < |b|
        invariant Valid()
        invariant GetTlvs(start, 0) == TlvsAfter(out, Rest())
        decreases |b| - pos
      {
        if pos + 4 > |b| {
          return Err(Truncated);
        }
        if |out| >= MAX_TLVS {
          return Err(TooManyTlvs);
        }
        TlvsAfterOne(out, Rest());
        assert Rest()[2..] == b[pos + 2..] && Rest()[4..] == b[pos + 4..];
        var tag, length := Get16(b[pos..]), Get16(b[pos + 2..]);
        pos := pos + 4;
        var value := Octets(length);
        if value.Err? {
          return Err(value.error);
        }
        out := out + [Tlv(tag, value.value)];
      }
      assert out + [] == out;
      return Ok(out);
    }

    method Message() returns (r: Result<Body, Error>)
      requires Valid()
      modifies this
      ensures r == DecodeMessage(old(Rest()))
    {
      ghost var start := Rest();
      FieldsHaveKinds(MESSAGE_KINDS, start);
      var fs := Fields(MESSAGE_KINDS);
      if fs.Err? {
        return Err(fs.error);
      }
      var length := Byte();
      if length.Err? {
        return Err(length.error);
      }
      if length.value > MAX_SHORT_MESSAGE_LEN {
        return Err(BadShortMessage);
      }
      var text := Octets(length.value);
      if text.Err? {
        return Err(text.error);
      }
      var tlvs := Tlvs();
      if tlvs.Err? {
        return Err(tlvs.error);
      }
      return Ok(Sm(MessageOf(fs.value, text.value, tlvs.value)));
    }
  }

  class Writer {
    var buf: bytes

    constructor ()
      ensures buf == []
    {
      buf := [];
    }

    method Fields(fs: seq<Field>)
      modifies this
      ensures buf == old(buf) + PutFields(fs)
    {
      var i := 0;
      assert fs[0..] == fs;
      while i < |fs|
        invariant 0 <= i <= |fs|
        invariant buf + PutFields(fs[i..]) == old(buf) + PutFields(fs)
      {
        assert fs[i..][1..] == fs[i + 1..];
        assert buf + PutFields(fs[i..]) == buf + PutField(fs[i]) + PutFields(fs[i + 1..]);
        buf := buf + PutField(fs[i]);
        i := i + 1;
      }
    }

    method Octets(b: bytes)
      modifies this
      ensures buf == old(buf) + b
    {
      buf := buf + b;
    }

    method Tlvs(ts: seq<Tlv>)
      modifies this
      ensures buf == old(buf) + PutTlvs(ts)
    {
      var i := 0;
      assert ts[0..] == ts;
      while i < |ts|
        invariant 0 <= i <= |ts|
        invariant buf + PutTlvs(ts[i..]) == old(buf) + PutTlvs(ts)
      {
        assert ts[i..][1..] == ts[i + 1..];
        assert buf + PutTlvs(ts[i..]) == buf + PutTlv(ts[i]) + PutTlvs(ts[i + 1..]);
        buf := buf + Put16(ts[i].tag) + Put16(|ts[i].value| % 0x1_0000) + ts[i].value;
        i := i + 1;
      }
    }

    method Message(m: Message)
      modifies this
      ensures buf == old(buf) + Marshal(Sm(m))
    {
      var fs := MessageFields(m);
      Fields(fs);
      var length := if |m.shortMessage| > MAX_SHORT_MESSAGE_LEN then MAX_SHORT_MESSAGE_LEN else |m.shortMessage|;
      Octets([length]);
      Octets(m.shortMessage[..length]);
      Tlvs(m.tlvs);
      assert m.shortMessage[..length] == Clamp(m.shortMessage);
      Joined(old(buf), PutFields(fs), [length], Clamp(m.shortMessage), PutTlvs(m.tlvs));
    }
  }

  lemma {:induction false} Joined(a: bytes, b: bytes, c: bytes, d: bytes, e: bytes)
    ensures a + b + c + d + e == a + (b + (c + (d + e)))
  {
  }

  /** Decode over the cursor. */
  method DecodeFrame(frame: bytes) returns (r: Result<Pdu, Error>)
    ensures r == Decode(frame)
  {
    if |frame| < HEADER_LEN {
      return Err(ShortPdu);
    }
    var id := Get32(frame[4..]);
    var reader := new Reader(frame, HEADER_LEN);
    var body: Option<Body> := None;
    if IsBind(id) {
      ghost var rest := reader.Rest();
      FieldsHaveKinds(BIND_KINDS, rest);
      var fs := reader.Fields(BIND_KINDS);
      if fs.Err? {
        return Err(fs.error);
      }
      body := Some(BindOf(fs.value));
    } else if IsBindResp(id) {
      if reader.pos == |reader.b| {
        body := Some(BindResp([], []));
      } else {
        var name := reader.COctetString();
        if name.Err? {
          return Err(name.error);
        }
        var tlvs := reader.Tlvs();
        if tlvs.Err? {
          return Err(tlvs.error);
        }
        body := Some(BindResp(name.value, tlvs.value));
      }
    } else if IsMessage(id) {
      var m := reader.Message();
      if m.Err? {
        return Err(m.error);
      }
      body := Some(m.value);
    } else if IsSubmitResp(id) {
      if reader.pos == |reader.b| {
        body := Some(SubmitResp([]));
      } else {
        var name := reader.COctetString();
        if name.Err? {
          return Err(name.error);
        }
        body := Some(SubmitResp(name.value));
      }
    } else if !IsHeaderOnly(id) {
      return Err(UnknownCommand);
    }
    return Ok(Pdu(id, Get32(frame[8..]), Get32(frame[12..]), body));
  }

  /** Encode over the buffer: command_length is computed from what was written. */
  method EncodePdu(p: Pdu) returns (r: Result<bytes, Error>)
    ensures r == Encode(p)
  {
    var w := new Writer();
    if p.body.Some? {
      match p.body.value {
        case Bind(_, _, _, _, _, _, _) => w.Fields(BindFields(p.body.value));
        case BindResp(id, tlvs) =>
          w.Octets(PutField(Str(id)));
          w.Tlvs(tlvs);
        case Sm(m) => w.Message(m);
        case SubmitResp(id) => w.Octets(PutField(Str(id)));
      }
    }
    assert w.buf == MarshalOption(p.body);
    var total := HEADER_LEN + |w.buf|;
    if total > MAX_PDU_LEN {
      return Err(BadCommandLength);
    }
    return Ok(Put32(total) + Put32(p.commandId) + Put32(p.commandStatus) + Put32(p.sequenceNumber) + w.buf);
  }
}
