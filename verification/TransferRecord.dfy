/** The private on-disk records of a transfer: the checksummed envelope, the decoder of a whole
    file, and the bounded reader that must agree with it. */
module TransferRecords {
  import opened Common
  import opened Transfers

  const MAGIC: seq<byte> := [0x52, 0x49, 0x46, 0x54, 0x58, 0x46, 0x45, 0x52]
  const HEADER_LEN: nat := 14
  const CHECKSUM_LEN: nat := 32
  const MAX_PAYLOAD_LEN: nat := 8192

  datatype Source = SentFrom(path: string) | Received

  datatype Manifest = Manifest(id: TransferId, peer: DeviceId, metadata: Metadata, source: Source)

  datatype TerminalOrigin = LocalSide | PeerSide

  datatype Record =
    | ManifestRecord(manifest: Manifest)
    | AcceptedMarker(binding: seq<byte>)
    | TerminalMarker(binding: seq<byte>, status: Status, origin: TerminalOrigin)

  datatype RecordError =
    | ReadFailed | Length | Magic | Version | TooLarge | Checksum | Decode | TrailingPayload | Encode | NotMarker
    | ManifestMismatch | InvalidRole

  /** The digest and the serializer, left abstract. `decode` gives a value and the bytes after it. */
  datatype Codec = Codec(
    hash: seq<byte> -> seq<byte>, encode: Record -> Option<seq<byte>>, decode: seq<byte> -> Option<(Record, seq<byte>)>)
  {
    ghost predicate Sound() {
      && (forall s :: |hash(s)| == CHECKSUM_LEN)
      && (forall r :: encode(r).Some? ==>
            0 < |encode(r).value| <= MAX_PAYLOAD_LEN && decode(encode(r).value) == Some((r, [])))
      && (forall d | |d| == CHECKSUM_LEN :: encode(AcceptedMarker(d)).Some?)
      && (forall d, s, o | |d| == CHECKSUM_LEN :: encode(TerminalMarker(d, s, o)).Some?)
    }
  }

  function HeaderFor(length: nat): (s: seq<byte>)
    requires length <= MAX_PAYLOAD_LEN
    ensures |s| == HEADER_LEN
  {
    MAGIC + [0, 1] + U32Bytes(length)
  }

  function EncodeRecord(c: Codec, record: Record): Result<seq<byte>, RecordError> {
    var payload := c.encode(record);
    if payload.None? || |payload.value| > MAX_PAYLOAD_LEN then Err(Encode) else
    var body := HeaderFor(|payload.value|) + payload.value;
    Ok(body + c.hash(body))
  }

  function PayloadLength(header: seq<byte>): (r: Result<nat, RecordError>)
    requires |header| == HEADER_LEN
    ensures r.Ok? ==> 0 < r.value <= MAX_PAYLOAD_LEN
  {
    if header[..8] != MAGIC then Err(Magic)
    else if U16Value(header[8..10]) != 1 then Err(Version)
    else
      var length := U32Value(header[10..14]);
      if length > MAX_PAYLOAD_LEN then Err(TooLarge) else if length == 0 then Err(Length) else Ok(length)
  }

  function DecodeRecord(c: Codec, bytes: seq<byte>): Result<Record, RecordError> {
    if |bytes| < HEADER_LEN then Err(Length) else
    match PayloadLength(bytes[..HEADER_LEN])
    case Err(e) => Err(e)
    case Ok(length) => DecodeBody(c, bytes, HEADER_LEN + length)
  }

  function DecodeBody(c: Codec, bytes: seq<byte>, end: nat): Result<Record, RecordError>
    requires HEADER_LEN <= end
  {
    if |bytes| != end + CHECKSUM_LEN then Err(Length)
    else if c.hash(bytes[..end]) != bytes[end..] then Err(Checksum)
    else
      match c.decode(bytes[HEADER_LEN..end])
      case None => Err(Decode)
      case Some((record, rest)) => if rest != [] then Err(TrailingPayload) else Ok(record)
  }

  // ----- the envelope -----

  lemma HeaderRoundTrip(length: nat)
    requires 0 < length <= MAX_PAYLOAD_LEN
    ensures PayloadLength(HeaderFor(length)) == Ok(length)
  {
  }

  /** A header followed by anything declares the header's length. */
  lemma HeaderOf(payload: seq<byte>, rest: seq<byte>)
    requires 0 < |payload| <= MAX_PAYLOAD_LEN
    ensures var bytes := HeaderFor(|payload|) + payload + rest;
            bytes[..HEADER_LEN] == HeaderFor(|payload|) && bytes[HEADER_LEN..HEADER_LEN + |payload|] == payload
            && bytes[..HEADER_LEN + |payload|] == HeaderFor(|payload|) + payload && bytes[HEADER_LEN + |payload|..] == rest
  {
  }

  /** Whatever can be encoded decodes to itself. */
  lemma RecordRoundTrip(c: Codec, record: Record)
    requires c.Sound() && EncodeRecord(c, record).Ok?
    ensures DecodeRecord(c, EncodeRecord(c, record).value) == Ok(record)
  {
    var payload := c.encode(record).value;
    HeaderRoundTrip(|payload|);
    HeaderOf(payload, c.hash(HeaderFor(|payload|) + payload));
    hide HeaderFor, PayloadLength;
  }

  /** No file that is cut short or continues past its record is ever accepted. */
  lemma OnlyWholeRecords(c: Codec, record: Record, n: nat, extra: seq<byte>)
    requires c.Sound() && EncodeRecord(c, record).Ok?
    ensures n < |EncodeRecord(c, record).value| ==> DecodeRecord(c, EncodeRecord(c, record).value[..n]) == Err(Length)
    ensures extra != [] ==> DecodeRecord(c, EncodeRecord(c, record).value + extra) == Err(Length)
  {
    hide HeaderFor, PayloadLength;
    var payload, whole := c.encode(record).value, EncodeRecord(c, record).value;
    var sum := c.hash(HeaderFor(|payload|) + payload);
    HeaderRoundTrip(|payload|);
    HeaderOf(payload, sum);
    HeaderOf(payload, sum + extra);
    assert whole + extra == HeaderFor(|payload|) + payload + (sum + extra);
    if HEADER_LEN <= n < |whole| {
      SliceOfPrefix(whole, n, 0, HEADER_LEN);
      assert whole[..n][..HEADER_LEN] == whole[..HEADER_LEN];
    }
  }

  /** A whole file: a header, a payload of the length it declares, and the checksum of both. */
  predicate Enveloped(c: Codec, bytes: seq<byte>, payload: seq<byte>) {
    0 < |payload| <= 8192 && bytes == HeaderFor(|payload|) + payload + c.hash(HeaderFor(|payload|) + payload)
  }

  /** EXACTLY WHAT IS ACCEPTED: a file decodes if and only if it is one envelope whose payload is the
      serialization of one record and nothing else. */
  lemma DecodeIsExact(c: Codec, bytes: seq<byte>, record: Record)
    requires forall s: seq<byte> :: |c.hash(s)| == CHECKSUM_LEN
    ensures DecodeRecord(c, bytes) == Ok(record)
       <==> exists payload :: Enveloped(c, bytes, payload) && c.decode(payload) == Some((record, []))
  {
    if DecodeRecord(c, bytes) == Ok(record) {
      HeaderIsRead(bytes[..HEADER_LEN]);
      var end := |bytes| - CHECKSUM_LEN;
      var payload := bytes[HEADER_LEN..end];
      assert bytes[..end] == bytes[..HEADER_LEN] + payload;
      assert bytes == bytes[..end] + bytes[end..];
      assert Enveloped(c, bytes, payload);
    }
    if payload :| Enveloped(c, bytes, payload) && c.decode(payload) == Some((record, [])) {
      HeaderRoundTrip(|payload|);
      HeaderOf(payload, c.hash(HeaderFor(|payload|) + payload));
      hide HeaderFor, PayloadLength;
    }
  }

  lemma HeaderIsRead(header: seq<byte>)
    requires |header| == HEADER_LEN && PayloadLength(header).Ok?
    ensures header == HeaderFor(PayloadLength(header).value)
  {
    U32ValueBytes(header[10..14]);
    assert header == header[..8] + header[8..10] + header[10..14];
    assert header[8..10] == [0, 1];
  }

  /** Every other file is refused for the first thing wrong with it. */
  lemma DecodeErrors(c: Codec, bytes: seq<byte>)
    ensures var r := DecodeRecord(c, bytes);
            && (r == Err(Magic) <==> |bytes| >= 14 && bytes[..8] != MAGIC)
            && (r == Err(Version) <==> |bytes| >= 14 && bytes[..8] == MAGIC && bytes[8..10] != [0, 1])
            && (r == Err(TooLarge) <==> |bytes| >= 14 && bytes[..10] == MAGIC + [0, 1] && U32Value(bytes[10..14]) > 8192)
            && (r == Err(Length) <==>
                  || |bytes| < 14
                  || (bytes[..10] == MAGIC + [0, 1]
                      && (U32Value(bytes[10..14]) == 0
                          || (U32Value(bytes[10..14]) <= 8192 && |bytes| != 14 + U32Value(bytes[10..14]) + 32))))
            && (r == Err(Checksum) <==> Framed(bytes) && c.hash(bytes[..|bytes| - 32]) != bytes[|bytes| - 32..])
            && (r == Err(Decode) <==> Framed(bytes) && Hashed(c, bytes) && c.decode(bytes[14..|bytes| - 32]).None?)
            && (r == Err(TrailingPayload) <==>
                  && Framed(bytes) && Hashed(c, bytes) && c.decode(bytes[14..|bytes| - 32]).Some?
                  && c.decode(bytes[14..|bytes| - 32]).value.1 != [])
  {
    if |bytes| >= 14 {
      assert bytes[..14][..8] == bytes[..8] && bytes[..14][8..10] == bytes[8..10] && bytes[..14][10..14] == bytes[10..14];
      assert bytes[..10] == bytes[..8] + bytes[8..10];
      assert bytes[..10][..8] == bytes[..8] && bytes[..10][8..] == bytes[8..10];
      assert (MAGIC + [0, 1])[..8] == MAGIC && (MAGIC + [0, 1])[8..] == [0, 1];
    }
  }

  /** The file has the length its header declares. */
  predicate Framed(bytes: seq<byte>) {
    && |bytes| >= 14 && bytes[..10] == MAGIC + [0, 1]
    && 0 < U32Value(bytes[10..14]) <= 8192 && |bytes| == 14 + U32Value(bytes[10..14]) + 32
  }

  predicate Hashed(c: Codec, bytes: seq<byte>)
    requires |bytes| >= 32
  {
    c.hash(bytes[..|bytes| - 32]) == bytes[|bytes| - 32..]
  }

  // ----- the bounded reader -----

  /** A file read in pieces of any size, which may also fail at any read. */
  class Reader {
    const content: seq<byte>
    var pos: nat
    var failed: bool

    predicate Valid()
      reads this
    {
      pos <= |content|
    }

    constructor (content: seq<byte>)
      ensures Valid() && this.content == content && pos == 0 && !failed
    {
      this.content, pos, failed := content, 0, false;
    }

    /** Some of the next bytes: none only at the end of the file, or when none were asked for. */
    method Read(max: nat) returns (chunk: seq<byte>)
      requires Valid()
      modifies this
      ensures Valid() && old(pos) <= pos && chunk == content[old(pos)..pos] && |chunk| <= max
      ensures old(failed) ==> failed
      ensures !failed ==> (chunk == [] <==> max == 0 || old(pos) == |content|)
      ensures failed ==> chunk == []
    {
      var fails: bool := *;
      if fails {
        failed := true;
        return [];
      }
      if failed {
        return [];
      }
      var most := Min(max, |content| - pos);
      if most == 0 {
        return [];
      }
      var n: nat :| 0 < n <= most;
      chunk := content[pos..pos + n];
      pos := pos + n;
    }
  }

  /** Fills a buffer of `n` bytes by however many reads it takes. */
  method ReadRecordBytes(reader: Reader, n: nat) returns (r: Result<seq<byte>, RecordError>)
    requires reader.Valid() && !reader.failed
    modifies reader
    ensures reader.Valid() && old(reader.pos) <= reader.pos <= old(reader.pos) + n
    ensures reader.failed ==> r == Err(ReadFailed)
    ensures !reader.failed && old(reader.pos) + n <= |reader.content| ==>
              r == Ok(reader.content[old(reader.pos)..old(reader.pos) + n]) && reader.pos == old(reader.pos) + n
    ensures !reader.failed && old(reader.pos) + n > |reader.content| ==> r == Err(Length)
  {
    var bytes: seq<byte> := [];
    while |bytes| < n
      invariant reader.Valid() && !reader.failed && |bytes| <= n
      invariant reader.pos == old(reader.pos) + |bytes| && bytes == reader.content[old(reader.pos)..reader.pos]
    {
      var chunk := reader.Read(n - |bytes|);
      if reader.failed {
        return Err(ReadFailed);
      }
      if chunk == [] {
        return Err(Length);
      }
      bytes := bytes + chunk;
    }
    return Ok(bytes);
  }

  /** How far a reader may go into a file: one byte past the record its header declares. */
  function Declared(content: seq<byte>): nat {
    if |content| < HEADER_LEN then |content|
    else match PayloadLength(content[..HEADER_LEN])
         case Err(_) => HEADER_LEN
         case Ok(length) => HEADER_LEN + length + CHECKSUM_LEN
  }

  /** Reads one record from the start of a file: exactly what decoding the whole file gives,
      errors included, whatever the sizes of the reads. */
  method ReadTransferRecord(c: Codec, reader: Reader) returns (r: Result<Record, RecordError>)
    requires reader.Valid() && reader.pos == 0 && !reader.failed
    modifies reader
    ensures !reader.failed ==> r == DecodeRecord(c, reader.content)
    ensures reader.failed ==> r == Err(ReadFailed)
    ensures reader.pos <= Declared(reader.content) + 1
  {
    var content := reader.content;
    var header := ReadRecordBytes(reader, HEADER_LEN);
    if header.Err? {
      return Err(header.error);
    }
    assert content[0..HEADER_LEN] == content[..HEADER_LEN];
    var length := PayloadLength(header.value);
    if length.Err? {
      return Err(length.error);
    }
    var body := ReadRecordBytes(reader, length.value + CHECKSUM_LEN);
    if body.Err? {
      return Err(body.error);
    }
    var extra := reader.Read(1);
    if reader.failed {
      return Err(ReadFailed);
    }
    if extra != [] {
      return Err(Length);
    }
    assert header.value + body.value == content;
    r := DecodeRecord(c, header.value + body.value);
  }
}
