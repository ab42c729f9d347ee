/** Framing: ReadPDU over a byte stream that ends cleanly, at a read deadline, or with a failure. */
module SmppStream {
  import opened Wrappers
  import opened Smpp
  import opened SmppTheorems

  /** How a stream stops delivering octets. */
  datatype End = AtEof | AtDeadline | AtReset

  /** What ReadPDU reports. Only `Deadline` may be retried: nothing of a frame was consumed. */
  datatype ReadError = Eof | Deadline | Reset | UnexpectedEof | PartialFrame | BadLength

  function Raw(end: End): ReadError {
    match end
    case AtEof => Eof
    case AtDeadline => Deadline
    case AtReset => Reset
  }

  /** io.ReadFull of `n` octets: all of them, or the error it returns after a short read. */
  function ReadFull(data: bytes, end: End, n: nat): Result<(bytes, bytes), ReadError> {
    if n <= |data| then Ok((data[..n], data[n..]))
    else if data != [] && end.AtEof? then Err(UnexpectedEof)
    else Err(Raw(end))
  }

  /** A mid-frame failure: a truncation stays one, anything else is no longer retryable. */
  function Partial(e: ReadError): ReadError {
    if e.UnexpectedEof? then e else PartialFrame
  }

  function ReadPdu(data: bytes, end: End): Result<(bytes, bytes), ReadError> {
    var head := ReadFull(data, end, 4);
    if head.Err? then Err(if data != [] then Partial(head.error) else head.error) else
    var length := Get32(head.value.0);
    if length < HEADER_LEN || length > MAX_PDU_LEN then Err(BadLength) else
    var tail := ReadFull(head.value.1, end, length - 4);
    if tail.Err? then Err(Partial(tail.error))
    else Ok((head.value.0 + tail.value.0, tail.value.1))
  }

  datatype Stop = ReadStops(read: ReadError) | DecodeStops(decode: Error)

  /** Reads and decodes PDUs until the stream or a frame fails. */
  function ReadAll(data: bytes, end: End): (seq<Pdu>, Stop)
    decreases |data|
  {
    match ReadPdu(data, end)
    case Err(e) => ([], ReadStops(e))
    case Ok((frame, rest)) =>
      match Decode(frame)
      case Err(e) => ([], DecodeStops(e))
      case Ok(p) => var (ps, stop) := ReadAll(rest, end); ([p] + ps, stop)
  }

  /** The encodings of `ps`, back to back. */
  function EncodeAll(ps: seq<Pdu>): bytes
    requires forall i :: 0 <= i < |ps| ==> Encode(ps[i]).Ok?
  {
    if ps == [] then [] else Encode(ps[0]).value + EncodeAll(ps[1..])
  }

  /** ReadPDU hands on exactly the first frame of the stream, and only well-framed ones. */
  lemma {:induction false} ReadPduFrames(data: bytes, end: End)
    ensures
      var r := ReadPdu(data, end);
      (r.Ok? ==> Framed(r.value.0) && data == r.value.0 + r.value.1)
  {
    var r := ReadPdu(data, end);
    if r.Ok? {
      assert r.value.0[..4] == data[..4] && r.value.0[2..4] == data[2..4];
      assert Get32(r.value.0) == Get32(data[..4]);
    }
  }

  lemma {:induction false} ReadsFirstFrame(frame: bytes, rest: bytes, end: End)
    requires Framed(frame)
    ensures ReadPdu(frame + rest, end) == Ok((frame, rest))
  {
    var data := frame + rest;
    assert data[..4] == frame[..4];
    assert Get32(frame[..4]) == Get32(frame);
    assert data[4..][..|frame| - 4] == frame[4..] && data[4..][|frame| - 4..] == rest;
    assert frame[..4] + frame[4..] == frame;
  }

  /** Any list of well-formed PDUs, encoded back to back, is read and decoded as that list, then a clean end. */
  lemma {:induction false} StreamRoundTrip(ps: seq<Pdu>)
    requires forall i :: 0 <= i < |ps| ==> WellFormed(ps[i]) && Encode(ps[i]).Ok?
    ensures ReadAll(EncodeAll(ps), AtEof) == (ps, ReadStops(Eof))
  {
    if ps != [] {
      HeaderFields(ps[0]);
      RoundTripIffWellFormed(ps[0]);
      ReadsFirstFrame(Encode(ps[0]).value, EncodeAll(ps[1..]), AtEof);
      StreamRoundTrip(ps[1..]);
      assert [ps[0]] + ps[1..] == ps;
    }
  }

  /** Re-encoding what was read from any stream reads again as the same PDUs. */
  lemma {:induction false} RereadsTheSame(data: bytes, end: End)
    ensures
      var ps := ReadAll(data, end).0;
      && (forall i :: 0 <= i < |ps| ==> WellFormed(ps[i]) && Encode(ps[i]).Ok?)
      && ReadAll(EncodeAll(ps), AtEof) == (ps, ReadStops(Eof))
    decreases |data|
  {
    var ps := ReadAll(data, end).0;
    var r := ReadPdu(data, end);
    if ps != [] {
      ReadPduFrames(data, end);
      AcceptedFrameReencodes(r.value.0);
      RoundTripIffWellFormed(ps[0]);
      RereadsTheSame(r.value.1, end);
      forall i | 0 <= i < |ps| ensures WellFormed(ps[i]) && Encode(ps[i]).Ok? {
        if i > 0 {
          assert ps[i] == ReadAll(r.value.1, end).0[i - 1];
        }
      }
    }
    StreamRoundTrip(ps);
  }

  /**
    What a stream cut inside a frame reports. A deadline is retryable exactly when no octet was
    consumed. A clean close is told from a truncation, except right after command_length, where
    the second read gets nothing and the truncation surfaces as PartialFrame.
  */
  lemma {:induction false} CutFrame(frame: bytes, k: nat, end: End)
    requires Framed(frame) && k < |frame|
    ensures
      var r := ReadPdu(frame[..k], end);
      && r.Err?
      && (r.error == Raw(end) <==> k == 0)
      && (r.error == UnexpectedEof <==> end.AtEof? && k != 0 && k != 4)
      && (r.error == PartialFrame <==> k == 4 || (k != 0 && !end.AtEof?))
  {
    if k >= 4 {
      assert frame[..k][..4] == frame[..4];
      assert Get32(frame[..4]) == Get32(frame);
    }
  }
}
