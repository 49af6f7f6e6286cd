/** The durable trust journal of rift-trust: record framing, replay with torn-tail recovery,
    commit with rollback and poisoning, and the in-memory generation that fences pairings.

    Postcard and BLAKE3 are a `Codec`: any pair of functions that round-trips a mutation, and
    any function with 32-byte results. */
module TrustJournal {
  import opened Common

  const MAGIC: seq<byte> := [0x52, 0x49, 0x46, 0x54, 0x54, 0x52, 0x53, 0x54]
  const VERSION: nat := 1
  const HEADER: seq<byte> := MAGIC + [0, 1]
  const HEADER_LEN: nat := 10
  const LENGTH_PREFIX_LEN: nat := 4
  const CHECKSUM_LEN: nat := 32
  const MAX_RECORD_LEN: nat := 1024
  const MAX_STORE_SIZE: nat := 16 * 1024 * 1024
  const MAX_RECORDS: nat := 100_000
  const MAX_DEVICE_NAME_LEN: nat := 128
  const MAX_PLATFORM_LEN: nat := 64

  /** Display metadata is held as its UTF-8 bytes, because only its byte length is checked. */
  datatype TrustedPeer = TrustedPeer(deviceId: DeviceId, deviceName: seq<byte>, platform: seq<byte>)

  datatype Mutation = Trust(peer: TrustedPeer) | Revoke(deviceId: DeviceId) | Forget(deviceId: DeviceId)

  datatype Decision = Trusted(peer: TrustedPeer) | Revoked

  type Decisions = map<DeviceId, Decision>

  datatype Corruption = ChecksumMismatch | InvalidEncoding | TrailingBytes | InvalidMetadata | RevokedTrusted

  datatype TrustError =
    | TruncatedHeader
    | InvalidMagic
    | UnsupportedVersion(version: nat)
    | StoreTooLarge(actual: nat)
    | RecordTooLarge(record: nat, actual: nat)
    | TooManyRecords
    | CorruptRecord(record: nat, offset: nat, reason: Corruption)
    | MetadataTooLong
    | InvalidPageLimit
    | RevokedIdentity(deviceId: DeviceId)
    | StaleTrustAttempt
    | StorePoisoned
    | CommitFailed
    | RollbackFailed

  datatype Codec = Codec(
    hash: seq<byte> -> seq<byte>,
    encode: Mutation -> seq<byte>,
    decode: seq<byte> -> Option<(Mutation, seq<byte>)>)
  {
    ghost predicate Sound() {
      && (forall b: seq<byte> :: |hash(b)| == CHECKSUM_LEN)
      && (forall m: Mutation :: decode(encode(m)) == Some((m, [])))
    }
  }

  // ----- decisions -----

  function Target(m: Mutation): DeviceId {
    match m case Trust(peer) => peer.deviceId case Revoke(d) => d case Forget(d) => d
  }

  predicate ValidPeer(peer: TrustedPeer) {
    |peer.deviceName| <= MAX_DEVICE_NAME_LEN && |peer.platform| <= MAX_PLATFORM_LEN
  }

  predicate ValidMutation(m: Mutation) {
    m.Trust? ==> ValidPeer(m.peer)
  }

  /** A revoked identity cannot be trusted until it has been forgotten. */
  predicate TransitionAllowed(ds: Decisions, m: Mutation) {
    !(m.Trust? && m.peer.deviceId in ds && ds[m.peer.deviceId].Revoked?)
  }

  function Apply(ds: Decisions, m: Mutation): Decisions {
    match m
    case Trust(peer) => ds[peer.deviceId := Trusted(peer)]
    case Revoke(d) => ds[d := Revoked]
    case Forget(d) => ds - {d}
  }

  // ----- the journal a history of mutations leaves behind -----

  function Record(c: Codec, payload: seq<byte>): seq<byte>
    requires |payload| <= U32_MAX
  {
    U32Bytes(|payload|) + payload + c.hash(payload)
  }

  predicate Encodable(c: Codec, m: Mutation) {
    ValidMutation(m) && |c.encode(m)| <= MAX_RECORD_LEN
  }

  /** Every mutation of `ms` was allowed when it was made. */
  ghost predicate Legal(c: Codec, ms: seq<Mutation>) {
    ms != [] ==>
      var n := |ms| - 1;
      Legal(c, ms[..n]) && Encodable(c, ms[n]) && TransitionAllowed(Fold(ms[..n]), ms[n])
  }

  ghost function Fold(ms: seq<Mutation>): Decisions {
    if ms == [] then map[] else Apply(Fold(ms[..|ms| - 1]), ms[|ms| - 1])
  }

  ghost function Journal(c: Codec, ms: seq<Mutation>): seq<byte>
    requires Legal(c, ms)
  {
    if ms == [] then HEADER
    else Journal(c, ms[..|ms| - 1]) + Record(c, c.encode(ms[|ms| - 1]))
  }

  lemma JournalExtends(c: Codec, ms: seq<Mutation>, m: Mutation)
    requires Legal(c, ms) && Encodable(c, m) && TransitionAllowed(Fold(ms), m)
    ensures Legal(c, ms + [m]) && Fold(ms + [m]) == Apply(Fold(ms), m)
    ensures Journal(c, ms + [m]) == Journal(c, ms) + Record(c, c.encode(m))
  {
  }

  // ----- replay -----

  datatype Replayed = Replayed(decisions: Decisions, validLen: nat, recordCount: nat)

  /** What one look at the bytes from `offset` on finds, after `n` records gave `ds`. */
  datatype Found = Torn | Bad(error: TrustError) | Whole(m: Mutation, end: nat)

  function Look(c: Codec, bytes: seq<byte>, offset: nat, ds: Decisions, n: nat): (f: Found)
    requires offset <= |bytes|
    ensures f.Whole? ==> offset < f.end <= |bytes|
  {
    if |bytes| - offset < LENGTH_PREFIX_LEN then Torn else
    var declared := U32Value(bytes[offset..offset + 4]);
    if declared > MAX_RECORD_LEN then Bad(RecordTooLarge(n, declared)) else
    var end := offset + LENGTH_PREFIX_LEN + declared + CHECKSUM_LEN;
    if end > |bytes| then Torn else
    if n >= MAX_RECORDS then Bad(TooManyRecords) else
    var payload := bytes[offset + 4..end - CHECKSUM_LEN];
    if bytes[end - CHECKSUM_LEN..end] != c.hash(payload) then Bad(CorruptRecord(n, offset, ChecksumMismatch)) else
    match c.decode(payload)
    case None => Bad(CorruptRecord(n, offset, InvalidEncoding))
    case Some((m, rest)) =>
      if rest != [] then Bad(CorruptRecord(n, offset, TrailingBytes)) else
      if !ValidMutation(m) then Bad(CorruptRecord(n, offset, InvalidMetadata)) else
      if !TransitionAllowed(ds, m) then Bad(CorruptRecord(n, offset, RevokedTrusted)) else
      Whole(m, end)
  }

  /** What the bytes from `offset` on replay to. */
  function ReplayFrom(c: Codec, bytes: seq<byte>, offset: nat, ds: Decisions, n: nat)
    : (r: Result<Replayed, TrustError>)
    requires offset <= |bytes|
    ensures r.Ok? ==> offset <= r.value.validLen <= |bytes|
    decreases |bytes| - offset
  {
    match Look(c, bytes, offset, ds, n)
    case Torn => Ok(Replayed(ds, offset, n))
    case Bad(e) => Err(e)
    case Whole(m, end) => ReplayFrom(c, bytes, end, Apply(ds, m), n + 1)
  }

  function CheckHeader(bytes: seq<byte>): Option<TrustError> {
    if |bytes| < HEADER_LEN then Some(TruncatedHeader)
    else if bytes[..8] != MAGIC then Some(InvalidMagic)
    else
      var version := U16Value(bytes[8..10]);
      if version != VERSION then Some(UnsupportedVersion(version)) else None
  }

  function ReplayAll(c: Codec, bytes: seq<byte>): (r: Result<Replayed, TrustError>)
    ensures r.Ok? ==> HEADER_LEN <= r.value.validLen <= |bytes|
  {
    match CheckHeader(bytes)
    case Some(e) => Err(e)
    case None => ReplayFrom(c, bytes, HEADER_LEN, map[], 0)
  }

  lemma {:induction false} JournalBeginsWithHeader(c: Codec, ms: seq<Mutation>)
    requires Legal(c, ms)
    ensures HEADER <= Journal(c, ms)
  {
    if ms != [] {
      JournalBeginsWithHeader(c, ms[..|ms| - 1]);
    }
  }

  lemma HeaderAccepted(bytes: seq<byte>)
    requires HEADER <= bytes
    ensures CheckHeader(bytes) == None
  {
  }

  /** Replaying any file that begins with the journal of `ms` gets past `ms` with exactly its
      decisions, length and count. */
  lemma {:induction false} ReplayPassesJournal(c: Codec, bytes: seq<byte>, ms: seq<Mutation>)
    requires c.Sound() && Legal(c, ms) && |ms| <= MAX_RECORDS
    requires Journal(c, ms) <= bytes
    ensures |Journal(c, ms)| >= HEADER_LEN
    ensures ReplayAll(c, bytes) == ReplayFrom(c, bytes, |Journal(c, ms)|, Fold(ms), |ms|)
  {
    hide Look;
    JournalBeginsWithHeader(c, ms);
    if ms == [] {
      HeaderAccepted(bytes);
    } else {
      var n := |ms| - 1;
      var before, record := Journal(c, ms[..n]), Record(c, c.encode(ms[n]));
      assert Journal(c, ms) == before + record;
      assert before <= bytes;
      ReplayPassesJournal(c, bytes, ms[..n]);
      assert bytes[|before|..|before| + |record|] == record;
      LookFindsRecord(c, bytes, |before|, Fold(ms[..n]), n, ms[n]);
    }
  }

  /** A complete record found at `offset` is read back as the mutation it encodes. */
  lemma LookFindsRecord(c: Codec, bytes: seq<byte>, offset: nat, ds: Decisions, n: nat, m: Mutation)
    requires c.Sound() && Encodable(c, m) && TransitionAllowed(ds, m) && n < MAX_RECORDS
    requires var record := Record(c, c.encode(m));
             offset + |record| <= |bytes| && bytes[offset..offset + |record|] == record
    ensures Look(c, bytes, offset, ds, n) == Whole(m, offset + |Record(c, c.encode(m))|)
  {
    LookFindsFrame(c, bytes, offset, ds, n, c.encode(m), m);
  }

  /** Replay stops, without an error, in front of any proper prefix of a record. */
  lemma TornTailStops(c: Codec, bytes: seq<byte>, offset: nat, payload: seq<byte>, k: nat, ds: Decisions, n: nat)
    requires c.Sound() && |payload| <= MAX_RECORD_LEN
    requires offset <= |bytes| && k < |Record(c, payload)| && bytes[offset..] == Record(c, payload)[..k]
    ensures Look(c, bytes, offset, ds, n) == Torn
  {
    if k >= LENGTH_PREFIX_LEN {
      U32RoundTrip(|payload|);
      assert bytes[offset..offset + 4] == bytes[offset..][..4] == U32Bytes(|payload|);
    }
  }

  /** What survives truncation to the valid length is exactly what replay had read. */
  lemma {:induction false} ReplayOfValidPrefix(c: Codec, bytes: seq<byte>, offset: nat, ds: Decisions, n: nat)
    requires offset <= |bytes| && ReplayFrom(c, bytes, offset, ds, n).Ok?
    ensures var v := ReplayFrom(c, bytes, offset, ds, n).value.validLen;
            ReplayFrom(c, bytes[..v], offset, ds, n) == ReplayFrom(c, bytes, offset, ds, n)
    decreases |bytes| - offset
  {
    var v := ReplayFrom(c, bytes, offset, ds, n).value.validLen;
    var found := Look(c, bytes, offset, ds, n);
    if found.Whole? {
      ReplayOfValidPrefix(c, bytes, found.end, Apply(ds, found.m), n + 1);
      LookIsLocal(c, bytes, offset, ds, n, v);
    }
  }

  /** A record is read the same way whatever follows it. */
  lemma LookIsLocal(c: Codec, bytes: seq<byte>, offset: nat, ds: Decisions, n: nat, v: nat)
    requires offset <= |bytes| && Look(c, bytes, offset, ds, n).Whole?
    requires Look(c, bytes, offset, ds, n).end <= v <= |bytes|
    ensures Look(c, bytes[..v], offset, ds, n) == Look(c, bytes, offset, ds, n)
  {
    var end := Look(c, bytes, offset, ds, n).end;
    SliceOfPrefix(bytes, v, offset, offset + 4);
    SliceOfPrefix(bytes, v, offset + 4, end - CHECKSUM_LEN);
    SliceOfPrefix(bytes, v, end - CHECKSUM_LEN, end);
  }

  // ----- exactly what replay accepts -----

  predicate Short(ps: seq<seq<byte>>) {
    forall i | 0 <= i < |ps| :: |ps[i]| <= MAX_RECORD_LEN
  }

  /** A file of frames: each a length, a payload and the payload's hash. */
  ghost function Framed(c: Codec, ps: seq<seq<byte>>): seq<byte>
    requires Short(ps)
  {
    if ps == [] then HEADER else Framed(c, ps[..|ps| - 1]) + Record(c, ps[|ps| - 1])
  }

  /** The payloads spell these mutations, with nothing behind them, each valid and allowed in turn. */
  ghost predicate Spells(c: Codec, ps: seq<seq<byte>>, ms: seq<Mutation>) {
    && |ps| == |ms| <= MAX_RECORDS && Short(ps) && Meant(c, ps, ms)
  }

  ghost predicate Meant(c: Codec, ps: seq<seq<byte>>, ms: seq<Mutation>)
    requires |ps| == |ms|
  {
    && (forall i | 0 <= i < |ps| :: c.decode(ps[i]) == Some((ms[i], [])))
    && (forall i | 0 <= i < |ps| :: ValidMutation(ms[i]) && TransitionAllowed(Fold(ms[..i]), ms[i]))
  }

  /** What is left of a file is too short for the frame it begins, if it begins one. */
  predicate Incomplete(rest: seq<byte>) {
    |rest| < LENGTH_PREFIX_LEN || (Declared(rest) <= MAX_RECORD_LEN && |rest| < FrameLen(rest))
  }

  function Declared(rest: seq<byte>): nat
    requires |rest| >= LENGTH_PREFIX_LEN
  {
    U32Value(rest[..LENGTH_PREFIX_LEN])
  }

  function FrameLen(rest: seq<byte>): nat
    requires |rest| >= LENGTH_PREFIX_LEN
  {
    LENGTH_PREFIX_LEN + Declared(rest) + CHECKSUM_LEN
  }

  /** `bytes` are whole frames that spell `ms`, and an incomplete rest. */
  ghost predicate Accepted(c: Codec, bytes: seq<byte>, ps: seq<seq<byte>>, ms: seq<Mutation>) {
    Spells(c, ps, ms) && Framed(c, ps) <= bytes && Incomplete(bytes[|Framed(c, ps)|..])
  }

  /** The first frame of `rest`, found after `n` good ones that decided `ds`, is at fault as `e` says. */
  ghost predicate Faulty(c: Codec, rest: seq<byte>, offset: nat, ds: Decisions, n: nat, e: TrustError) {
    && |rest| >= LENGTH_PREFIX_LEN
    && (Declared(rest) > MAX_RECORD_LEN ==> e == RecordTooLarge(n, Declared(rest)))
    && (Declared(rest) <= MAX_RECORD_LEN ==>
          && FrameLen(rest) <= |rest| && (n >= MAX_RECORDS <==> e == TooManyRecords)
          && (n < MAX_RECORDS ==>
                var p, sum := rest[4..4 + Declared(rest)], rest[4 + Declared(rest)..FrameLen(rest)];
                && e.CorruptRecord? && e.record == n && e.offset == offset
                && Reason(c, p, sum, ds, e.reason)))
  }

  /** Why a frame with this payload and checksum is refused: the first thing wrong with it. */
  ghost predicate Reason(c: Codec, p: seq<byte>, sum: seq<byte>, ds: Decisions, reason: Corruption) {
    && (reason.ChecksumMismatch? <==> sum != c.hash(p))
    && (reason.InvalidEncoding? <==> sum == c.hash(p) && c.decode(p).None?)
    && (reason.TrailingBytes? <==> sum == c.hash(p) && c.decode(p).Some? && c.decode(p).value.1 != [])
    && (reason.InvalidMetadata? || reason.RevokedTrusted? ==>
          && sum == c.hash(p) && c.decode(p).Some? && c.decode(p).value.1 == []
          && (reason.InvalidMetadata? <==> !ValidMutation(c.decode(p).value.0))
          && (reason.RevokedTrusted? ==> !TransitionAllowed(ds, c.decode(p).value.0)))
  }

  lemma SpellsMore(c: Codec, ps: seq<seq<byte>>, ms: seq<Mutation>, p: seq<byte>, m: Mutation)
    requires Spells(c, ps, ms) && |ms| < MAX_RECORDS && |p| <= MAX_RECORD_LEN && c.decode(p) == Some((m, []))
    requires ValidMutation(m) && TransitionAllowed(Fold(ms), m)
    ensures Spells(c, ps + [p], ms + [m]) && Framed(c, ps + [p]) == Framed(c, ps) + Record(c, p)
    ensures Fold(ms + [m]) == Apply(Fold(ms), m)
  {
    forall i | 0 <= i < |ps| + 1 ensures TransitionAllowed(Fold((ms + [m])[..i]), (ms + [m])[i]) {
      assert (ms + [m])[..i] == ms[..i];
    }
    assert (ps + [p])[..|ps|] == ps && (ms + [m])[..|ms|] == ms;
  }

  /** One look at what follows good frames: incomplete, at fault, or one more good frame. */
  lemma LookIsExact(c: Codec, bytes: seq<byte>, offset: nat, ds: Decisions, n: nat)
    requires offset <= |bytes|
    ensures var rest := bytes[offset..];
            match Look(c, bytes, offset, ds, n)
            case Torn => Incomplete(rest)
            case Bad(e) => Faulty(c, rest, offset, ds, n, e)
            case Whole(m, end) =>
              && |rest| >= LENGTH_PREFIX_LEN && Declared(rest) <= MAX_RECORD_LEN && end == offset + FrameLen(rest) && n < MAX_RECORDS
              && var p := bytes[offset + 4..end - CHECKSUM_LEN];
              && bytes[offset..end] == Record(c, p)
              && c.decode(p) == Some((m, [])) && ValidMutation(m) && TransitionAllowed(ds, m)
  {
    if |bytes| - offset >= LENGTH_PREFIX_LEN {
      var rest := bytes[offset..];
      assert rest[..4] == bytes[offset..offset + 4];
      if Declared(rest) <= MAX_RECORD_LEN && FrameLen(rest) <= |rest| {
        FrameParts(c, bytes, offset);
      }
    }
  }

  /** Where the payload and the checksum of a frame are. */
  lemma FrameParts(c: Codec, bytes: seq<byte>, offset: nat)
    requires offset + LENGTH_PREFIX_LEN <= |bytes| && offset + FrameLen(bytes[offset..]) <= |bytes|
    requires Declared(bytes[offset..]) <= MAX_RECORD_LEN
    ensures var rest, end := bytes[offset..], offset + FrameLen(bytes[offset..]);
            var p, sum := bytes[offset + 4..end - CHECKSUM_LEN], bytes[end - CHECKSUM_LEN..end];
            && rest[4..4 + Declared(rest)] == p && rest[4 + Declared(rest)..FrameLen(rest)] == sum
            && (sum == c.hash(p) ==> bytes[offset..end] == Record(c, p))
  {
    var rest, end := bytes[offset..], offset + FrameLen(bytes[offset..]);
    var declared := Declared(rest);
    assert bytes[offset..offset + |rest|] == rest && rest[..4] == bytes[offset..offset + 4];
    SliceOfSlice(bytes, offset, |rest|, 4, 4 + declared);
    SliceOfSlice(bytes, offset, |rest|, 4 + declared, FrameLen(rest));
    U32ValueBytes(rest[..4]);
    assert bytes[offset..end] == bytes[offset..offset + 4] + bytes[offset + 4..end - CHECKSUM_LEN] + bytes[end - CHECKSUM_LEN..end];
  }

  /** Replay from behind good frames ends behind good frames: at an incomplete rest, or at the first
      fault, which it reports. */
  lemma {:induction false} ReplayReadsFrames(c: Codec, bytes: seq<byte>, ps: seq<seq<byte>>, ms: seq<Mutation>)
    returns (qs: seq<seq<byte>>, ns: seq<Mutation>)
    requires Spells(c, ps, ms) && Framed(c, ps) <= bytes
    ensures Spells(c, qs, ns) && Framed(c, qs) <= bytes
    ensures var rest := bytes[|Framed(c, qs)|..];
            match ReplayFrom(c, bytes, |Framed(c, ps)|, Fold(ms), |ms|)
            case Ok(v) => v == Replayed(Fold(ns), |Framed(c, qs)|, |ns|) && Incomplete(rest)
            case Err(e) => Faulty(c, rest, |Framed(c, qs)|, Fold(ns), |ns|, e)
    decreases |bytes| - |Framed(c, ps)|
  {
    hide Look, Faulty, Incomplete, Meant, Short, Record, Fold, Apply;
    var offset := |Framed(c, ps)|;
    qs, ns := ps, ms;
    LookIsExact(c, bytes, offset, Fold(ms), |ms|);
    match Look(c, bytes, offset, Fold(ms), |ms|) {
      case Whole(m, end) =>
        var p := bytes[offset + 4..end - CHECKSUM_LEN];
        SpellsMore(c, ps, ms, p, m);
        assert bytes[..end] == bytes[..offset] + bytes[offset..end];
        qs, ns := ReplayReadsFrames(c, bytes, ps + [p], ms + [m]);
      case _ =>
    }
  }

  lemma {:induction false} FramedBeginsWithHeader(c: Codec, ps: seq<seq<byte>>)
    requires Short(ps)
    ensures HEADER <= Framed(c, ps)
  {
    if ps != [] {
      FramedBeginsWithHeader(c, ps[..|ps| - 1]);
    }
  }

  lemma LookFindsFrame(c: Codec, bytes: seq<byte>, offset: nat, ds: Decisions, n: nat, p: seq<byte>, m: Mutation)
    requires |c.hash(p)| == CHECKSUM_LEN && |p| <= MAX_RECORD_LEN && n < MAX_RECORDS
    requires c.decode(p) == Some((m, [])) && ValidMutation(m) && TransitionAllowed(ds, m)
    requires offset + |Record(c, p)| <= |bytes| && bytes[offset..offset + |Record(c, p)|] == Record(c, p)
    ensures Look(c, bytes, offset, ds, n) == Whole(m, offset + |Record(c, p)|)
  {
    var record := Record(c, p);
    U32RoundTrip(|p|);
    SliceOfSlice(bytes, offset, |record|, 0, 4);
    SliceOfSlice(bytes, offset, |record|, 4, 4 + |p|);
    SliceOfSlice(bytes, offset, |record|, 4 + |p|, |record|);
    assert record[0..4] == U32Bytes(|p|) && record[4..4 + |p|] == p && record[4 + |p|..|record|] == c.hash(p);
  }

  /** Replay passes any good frames. */
  lemma {:induction false} ReplayPassesFrames(c: Codec, bytes: seq<byte>, ps: seq<seq<byte>>, ms: seq<Mutation>)
    requires (forall b: seq<byte> :: |c.hash(b)| == CHECKSUM_LEN) && Spells(c, ps, ms) && Framed(c, ps) <= bytes
    ensures |Framed(c, ps)| >= HEADER_LEN
    ensures ReplayAll(c, bytes) == ReplayFrom(c, bytes, |Framed(c, ps)|, Fold(ms), |ms|)
    decreases |ps|
  {
    hide Look, Record, Meant, Short;
    FramedBeginsWithHeader(c, ps);
    if ps == [] {
      HeaderAccepted(bytes);
    } else {
      var n := |ps| - 1;
      FewerSpelled(c, ps, ms);
      var before, record := Framed(c, ps[..n]), Record(c, ps[n]);
      assert Framed(c, ps) == before + record;
      ReplayPassesFrames(c, bytes, ps[..n], ms[..n]);
      assert bytes[|before|..|before| + |record|] == record;
      LookFindsFrame(c, bytes, |before|, Fold(ms[..n]), n, ps[n], ms[n]);
    }
  }

  lemma FewerSpelled(c: Codec, ps: seq<seq<byte>>, ms: seq<Mutation>)
    requires Spells(c, ps, ms) && ps != []
    ensures var n := |ps| - 1;
            && Spells(c, ps[..n], ms[..n]) && |ps[n]| <= MAX_RECORD_LEN && c.decode(ps[n]) == Some((ms[n], []))
            && ValidMutation(ms[n]) && TransitionAllowed(Fold(ms[..n]), ms[n])
  {
    var n := |ps| - 1;
    forall i | 0 <= i < n ensures TransitionAllowed(Fold(ms[..n][..i]), ms[i]) {
      assert ms[..n][..i] == ms[..i];
    }
  }

  lemma IncompleteIsTorn(c: Codec, bytes: seq<byte>, offset: nat, ds: Decisions, n: nat)
    requires offset <= |bytes| && Incomplete(bytes[offset..])
    ensures Look(c, bytes, offset, ds, n) == Torn
  {
    if |bytes| - offset >= LENGTH_PREFIX_LEN {
      assert bytes[offset..][..4] == bytes[offset..offset + 4];
    }
  }

  /** EXACTLY WHAT IS ACCEPTED. A file replays if and only if it is whole, hashed frames that spell
      valid mutations, each allowed in turn, and an incomplete rest; and then to their decisions,
      their length and their number. */
  lemma ReplayIsExact(c: Codec, bytes: seq<byte>)
    requires forall b: seq<byte> :: |c.hash(b)| == CHECKSUM_LEN
    ensures ReplayAll(c, bytes).Ok? <==> exists ps, ms :: Accepted(c, bytes, ps, ms)
    ensures forall ps, ms | Accepted(c, bytes, ps, ms) ::
              ReplayAll(c, bytes) == Ok(Replayed(Fold(ms), |Framed(c, ps)|, |ms|))
  {
    forall ps, ms | Accepted(c, bytes, ps, ms)
      ensures ReplayAll(c, bytes) == Ok(Replayed(Fold(ms), |Framed(c, ps)|, |ms|))
    {
      ReplayPassesFrames(c, bytes, ps, ms);
      IncompleteIsTorn(c, bytes, |Framed(c, ps)|, Fold(ms), |ms|);
    }
    if ReplayAll(c, bytes).Ok? {
      HeaderIsRead(bytes);
      var qs, ns := ReplayReadsFrames(c, bytes, [], []);
      assert Accepted(c, bytes, qs, ns);
    }
  }

  lemma HeaderIsRead(bytes: seq<byte>)
    ensures CheckHeader(bytes).None? <==> HEADER <= bytes
    ensures CheckHeader(bytes) == Some(TruncatedHeader) <==> |bytes| < HEADER_LEN
    ensures CheckHeader(bytes) == Some(InvalidMagic) <==> |bytes| >= HEADER_LEN && bytes[..8] != MAGIC
    ensures forall v :: CheckHeader(bytes) == Some(UnsupportedVersion(v)) <==>
                          |bytes| >= HEADER_LEN && bytes[..8] == MAGIC && v == 256 * bytes[8] as nat + bytes[9] as nat != 1
  {
    if CheckHeader(bytes).None? {
      assert bytes[..10] == bytes[..8] + bytes[8..10];
      assert bytes[8..10] == [0, 1];
    }
  }

  /** And what is refused is refused for its header, or for the first frame at fault. */
  lemma ReplayRefuses(c: Codec, bytes: seq<byte>) returns (qs: seq<seq<byte>>, ns: seq<Mutation>)
    requires ReplayAll(c, bytes).Err?
    ensures if HEADER <= bytes
            then && Spells(c, qs, ns) && Framed(c, qs) <= bytes
                 && Faulty(c, bytes[|Framed(c, qs)|..], |Framed(c, qs)|, Fold(ns), |ns|, ReplayAll(c, bytes).error)
            else CheckHeader(bytes) == Some(ReplayAll(c, bytes).error)
  {
    HeaderIsRead(bytes);
    qs, ns := [], [];
    if HEADER <= bytes {
      qs, ns := ReplayReadsFrames(c, bytes, [], []);
    }
  }

  // ----- the store -----

  datatype Store = Store(
    disk: seq<byte>, decisions: Decisions, fileLen: nat, recordCount: nat,
    generations: map<DeviceId, nat>, poisoned: bool)
  {
    function Generation(d: DeviceId): nat {
      if d in generations then generations[d] else 0
    }
    predicate GenerationsBounded() {
      forall d | d in generations :: generations[d] <= recordCount
    }
    predicate IsTrusted(d: DeviceId) {
      d in decisions && decisions[d].Trusted?
    }
  }

  const FreshStore := Store(HEADER, map[], HEADER_LEN, 0, map[], false)

  /** How one append ends: durable, or failed, with the rollback either durable or itself failed and
      `kept` of the bytes left behind. */
  datatype Persist = Written | Lost(kept: nat, rolledBack: bool)

  /** Everything `commit` checks before it touches the file. */
  function Refusal(c: Codec, s: Store, m: Mutation, expected: Option<(DeviceId, nat)>): Option<TrustError> {
    if !ValidMutation(m) then Some(MetadataTooLong)
    else if |c.encode(m)| > MAX_RECORD_LEN then Some(RecordTooLarge(0, |c.encode(m)|))
    else if s.poisoned then Some(StorePoisoned)
    else if expected.Some? && s.Generation(expected.value.0) != expected.value.1 then Some(StaleTrustAttempt)
    else if !TransitionAllowed(s.decisions, m) then Some(RevokedIdentity(Target(m)))
    else if s.recordCount >= MAX_RECORDS then Some(TooManyRecords)
    else
      var next := s.fileLen + |Record(c, c.encode(m))|;
      if next > MAX_STORE_SIZE then Some(StoreTooLarge(next)) else None
  }

  function Advance(s: Store, m: Mutation): map<DeviceId, nat> {
    if m.Forget? then s.generations[m.deviceId := Min(s.Generation(m.deviceId) + 1, U64_MAX)] else s.generations
  }

  function Commit(c: Codec, s: Store, m: Mutation, expected: Option<(DeviceId, nat)>, io: Persist)
    : (Store, Result<(), TrustError>)
  {
    match Refusal(c, s, m, expected)
    case Some(e) => (s, Err(e))
    case None =>
      var record := Record(c, c.encode(m));
      match io
      case Written =>
        (Store(s.disk + record, Apply(s.decisions, m), s.fileLen + |record|, s.recordCount + 1, Advance(s, m), false),
         Ok(()))
      case Lost(kept, rolledBack) =>
        (s.(poisoned := true, disk := s.disk + record[..if rolledBack then 0 else Min(kept, |record|)]),
         Err(if rolledBack then CommitFailed else RollbackFailed))
  }

  /** A commit that can be written succeeds if and only if nothing stands against it, and then
      decides its own identity and no other. */
  lemma CommitSucceeds(c: Codec, s: Store, m: Mutation, expected: Option<(DeviceId, nat)>)
    requires forall b: seq<byte> :: |c.hash(b)| == CHECKSUM_LEN
    ensures var (s', r) := Commit(c, s, m, expected, Written);
            && (r.Ok? <==>
                  && (m.Trust? ==> |m.peer.deviceName| <= 128 && |m.peer.platform| <= 64)
                  && |c.encode(m)| <= 1024 && !s.poisoned
                  && (expected.Some? ==> s.Generation(expected.value.0) == expected.value.1)
                  && (m.Trust? && m.peer.deviceId in s.decisions ==> s.decisions[m.peer.deviceId] != Revoked)
                  && s.recordCount < 100_000 && s.fileLen + 4 + |c.encode(m)| + 32 <= 16 * 1024 * 1024)
            && (r.Err? ==> s' == s)
            && (r.Ok? ==>
                  && (forall d | d != Target(m) :: d in s'.decisions <==> d in s.decisions)
                  && (forall d | d != Target(m) && d in s.decisions :: s'.decisions[d] == s.decisions[d])
                  && (m.Trust? ==> s'.IsTrusted(m.peer.deviceId) && s'.decisions[m.peer.deviceId].peer == m.peer)
                  && (m.Revoke? ==> m.deviceId in s'.decisions && s'.decisions[m.deviceId] == Revoked)
                  && (m.Forget? ==> m.deviceId !in s'.decisions))
  {
  }

  /** Which refusal a commit gets: the first that applies. */
  lemma RefusalsInOrder(c: Codec, s: Store, m: Mutation, expected: Option<(DeviceId, nat)>)
    requires forall b: seq<byte> :: |c.hash(b)| == CHECKSUM_LEN
    ensures var e := Refusal(c, s, m, expected);
            var stale := expected.Some? && s.Generation(expected.value.0) != expected.value.1;
            var revoked := m.Trust? && m.peer.deviceId in s.decisions && s.decisions[m.peer.deviceId] == Revoked;
            && (e == Some(MetadataTooLong) <==> m.Trust? && (|m.peer.deviceName| > 128 || |m.peer.platform| > 64))
            && (e == Some(RecordTooLarge(0, |c.encode(m)|)) <==> e != Some(MetadataTooLong) && |c.encode(m)| > 1024)
            && (e == Some(StorePoisoned) <==> Encodable(c, m) && s.poisoned)
            && (e == Some(StaleTrustAttempt) <==> Encodable(c, m) && !s.poisoned && stale)
            && (e == Some(RevokedIdentity(Target(m))) <==> Encodable(c, m) && !s.poisoned && !stale && revoked)
            && (e == Some(TooManyRecords) <==>
                  Encodable(c, m) && !s.poisoned && !stale && !revoked && s.recordCount >= 100_000)
            && (e == Some(StoreTooLarge(s.fileLen + 36 + |c.encode(m)|)) <==>
                  && Encodable(c, m) && !s.poisoned && !stale && !revoked && s.recordCount < 100_000
                  && s.fileLen + 36 + |c.encode(m)| > 16 * 1024 * 1024)
  {
  }

  /** A commit that nothing stands against but the file system poisons the store: what is in memory
      stays, the file holds what was left of the record, and nothing is committed any more. */
  lemma LostPoisons(c: Codec, s: Store, m: Mutation, expected: Option<(DeviceId, nat)>, io: Persist,
                    next: Mutation, wanted: Option<(DeviceId, nat)>, later: Persist)
    requires Refusal(c, s, m, expected).None? && io.Lost?
    ensures var (s', r) := Commit(c, s, m, expected, io);
            && r == Err(if io.rolledBack then CommitFailed else RollbackFailed)
            && s'.(disk := s.disk) == s.(poisoned := true)
            && s.disk <= s'.disk <= s.disk + Record(c, c.encode(m)) && (io.rolledBack ==> s'.disk == s.disk)
            && Commit(c, s', next, wanted, later).1.Err? && Commit(c, s', next, wanted, later).0 == s'
  {
  }

  /** Opening an existing file: replay it and cut off an incomplete final record. */
  function Reopen(c: Codec, disk: seq<byte>): Result<Store, TrustError> {
    if |disk| > MAX_STORE_SIZE then Err(StoreTooLarge(|disk|)) else
    match ReplayAll(c, disk)
    case Err(e) => Err(e)
    case Ok(r) => Ok(Store(disk[..r.validLen], r.decisions, r.validLen, r.recordCount, map[], false))
  }

  /** A file opens if and only if it is at most 16 MiB of whole frames that spell mutations allowed in
      turn, and an incomplete rest, which is cut off; the store is what they decide, and remembers no
      generation. */
  lemma ReopenIsExact(c: Codec, disk: seq<byte>)
    requires forall b: seq<byte> :: |c.hash(b)| == CHECKSUM_LEN
    ensures Reopen(c, disk).Ok? <==> |disk| <= 16 * 1024 * 1024 && exists ps, ms :: Accepted(c, disk, ps, ms)
    ensures Reopen(c, disk) == Err(StoreTooLarge(|disk|)) <== |disk| > 16 * 1024 * 1024
    ensures forall ps, ms | |disk| <= 16 * 1024 * 1024 && Accepted(c, disk, ps, ms) ::
              Reopen(c, disk) == Ok(Store(Framed(c, ps), Fold(ms), |Framed(c, ps)|, |ms|, map[], false))
  {
    hide ReplayAll, Meant, Framed, Incomplete, Fold;
    ReplayIsExact(c, disk);
    forall ps, ms | Accepted(c, disk, ps, ms) ensures disk[..|Framed(c, ps)|] == Framed(c, ps) {
    }
  }

  /** Recovery is idempotent, whatever bytes are in the file. */
  lemma RecoveryIsIdempotent(c: Codec, disk: seq<byte>)
    requires Reopen(c, disk).Ok?
    ensures Reopen(c, Reopen(c, disk).value.disk) == Reopen(c, disk)
  {
    var v := ReplayAll(c, disk).value.validLen;
    ReplayOfValidPrefix(c, disk, HEADER_LEN, map[], 0);
    SliceOfPrefix(disk, v, 0, 8);
    SliceOfPrefix(disk, v, 8, 10);
    assert disk[..v][..v] == disk[..v];
  }

  // ----- what every life of a store keeps -----

  ghost predicate Within(c: Codec, ms: seq<Mutation>) {
    Legal(c, ms) && |ms| <= MAX_RECORDS && |Journal(c, ms)| <= MAX_STORE_SIZE
  }

  /** The bytes are the journal of `ms`, possibly followed by part of one refused-by-disk record. */
  ghost predicate Holds(c: Codec, disk: seq<byte>, ms: seq<Mutation>)
    requires Within(c, ms)
  {
    disk == Journal(c, ms)
    || exists m, k :: Partial(c, disk, ms, m, k)
  }

  ghost predicate Partial(c: Codec, disk: seq<byte>, ms: seq<Mutation>, m: Mutation, k: nat)
    requires Within(c, ms)
  {
    Within(c, ms + [m]) && k <= |Record(c, c.encode(m))| && disk == Journal(c, ms) + Record(c, c.encode(m))[..k]
  }

  /** Memory, length and count are those of the history `ms`; so is the file, unless poisoned. */
  ghost predicate Consistent(c: Codec, s: Store, ms: seq<Mutation>) {
    && Within(c, ms)
    && s.decisions == Fold(ms)
    && s.fileLen == |Journal(c, ms)|
    && s.recordCount == |ms|
    && Holds(c, s.disk, ms)
    && (!s.poisoned ==> s.disk == Journal(c, ms))
    && s.GenerationsBounded()
  }

  lemma CommitKeepsConsistent(c: Codec, s: Store, ms: seq<Mutation>, m: Mutation,
                              expected: Option<(DeviceId, nat)>, io: Persist)
    requires Consistent(c, s, ms)
    ensures var (s', r) := Commit(c, s, m, expected, io);
            Consistent(c, s', if r.Ok? then ms + [m] else ms)
  {
    if Refusal(c, s, m, expected).None? {
      JournalExtends(c, ms, m);
      var s' := Commit(c, s, m, expected, io).0;
      if io.Lost? {
        var k := if io.rolledBack then 0 else Min(io.kept, |Record(c, c.encode(m))|);
        assert Partial(c, s'.disk, ms, m, k);
      }
    }
  }

  /** CRASH ATOMICITY. Whatever part of the record of `m` is in the file, reopening succeeds and
      gives exactly the history without `m`, or exactly the history with it. */
  lemma CrashAtomicity(c: Codec, ms: seq<Mutation>, m: Mutation, k: nat)
    requires c.Sound() && Within(c, ms) && Within(c, ms + [m])
    requires k <= |Record(c, c.encode(m))|
    ensures var disk := Journal(c, ms) + Record(c, c.encode(m))[..k];
            var survived := if k == |Record(c, c.encode(m))| then ms + [m] else ms;
            Reopen(c, disk) == Ok(Store(Journal(c, survived), Fold(survived), |Journal(c, survived)|,
                                        |survived|, map[], false))
  {
    var record := Record(c, c.encode(m));
    var disk := Journal(c, ms) + record[..k];
    assert (ms + [m])[..|ms|] == ms;
    if k == |record| {
      assert record[..k] == record;
      JournalExtends(c, ms, m);
      WholeJournalReopens(c, ms + [m]);
    } else {
      TornJournalReopens(c, ms, m, k);
    }
  }

  lemma WholeJournalReopens(c: Codec, ms: seq<Mutation>)
    requires c.Sound() && Within(c, ms)
    ensures Reopen(c, Journal(c, ms)) == Ok(Store(Journal(c, ms), Fold(ms), |Journal(c, ms)|, |ms|, map[], false))
  {
    var disk := Journal(c, ms);
    ReplayPassesJournal(c, disk, ms);
    assert disk[..|disk|] == disk;
  }

  lemma TornJournalReopens(c: Codec, ms: seq<Mutation>, m: Mutation, k: nat)
    requires c.Sound() && Within(c, ms) && Within(c, ms + [m])
    requires k < |Record(c, c.encode(m))|
    ensures Reopen(c, Journal(c, ms) + Record(c, c.encode(m))[..k])
         == Ok(Store(Journal(c, ms), Fold(ms), |Journal(c, ms)|, |ms|, map[], false))
  {
    var journal, record := Journal(c, ms), Record(c, c.encode(m));
    var disk := journal + record[..k];
    assert (ms + [m])[..|ms|] == ms;
    JournalExtends(c, ms, m);
    ReplayPassesJournal(c, disk, ms);
    assert disk[|journal|..] == record[..k];
    TornTailStops(c, disk, |journal|, c.encode(m), k, Fold(ms), |ms|);
    assert disk[..|journal|] == journal;
  }

  /** While the store is not poisoned, reopening its file gives back its own memory: decisions,
      length, record count and file. Only the in-memory generations start again. */
  lemma MemoryIsReplayOfDisk(c: Codec, s: Store, ms: seq<Mutation>)
    requires c.Sound() && Consistent(c, s, ms) && !s.poisoned
    ensures Reopen(c, s.disk) == Ok(s.(generations := map[]))
  {
    WholeJournalReopens(c, ms);
  }

  // ----- lives: commits, failures, crashes and restarts in any order -----

  /** One thing that can happen to a store: a commit, or losing the process when `k` bytes of
      the record for `m` are in the file (`k == 0`: nothing was being written), then reopening. */
  datatype Op =
    | Mutate(m: Mutation, expected: Option<(DeviceId, nat)>, io: Persist)
    | Crash(m: Mutation, k: nat)

  function CrashDisk(c: Codec, s: Store, m: Mutation, k: nat): seq<byte> {
    if Refusal(c, s, m, None).Some? then s.disk
    else
      var record := Record(c, c.encode(m));
      s.disk + record[..Min(k, |record|)]
  }

  function Step(c: Codec, s: Store, op: Op): Store {
    match op
    case Mutate(m, expected, io) => Commit(c, s, m, expected, io).0
    case Crash(m, k) =>
      var r := Reopen(c, CrashDisk(c, s, m, k));
      if r.Ok? then r.value else s
  }

  ghost function Life(c: Codec, s: Store, ops: seq<Op>): Store {
    if ops == [] then s else Step(c, Life(c, s, ops[..|ops| - 1]), ops[|ops| - 1])
  }

  /** A commit that fails, rolled back or not, then a restart: exactly the history before that
      mutation, or exactly the history with it, the latter only if the whole record stayed. */
  lemma FailedCommitIsAtomic(c: Codec, s: Store, ms: seq<Mutation>, m: Mutation,
                             expected: Option<(DeviceId, nat)>, io: Persist)
    requires c.Sound() && Consistent(c, s, ms) && !s.poisoned && io.Lost? && Refusal(c, s, m, expected).None?
    ensures var whole := !io.rolledBack && io.kept >= |Record(c, c.encode(m))|;
            var survived := if whole then ms + [m] else ms;
            Reopen(c, Commit(c, s, m, expected, io).0.disk)
              == Ok(Store(Journal(c, survived), Fold(survived), |Journal(c, survived)|, |survived|, map[], false))
  {
    JournalExtends(c, ms, m);
    CrashAtomicity(c, ms, m, if io.rolledBack then 0 else Min(io.kept, |Record(c, c.encode(m))|));
  }

  /** The mutation whose commit failed since the last restart. */
  ghost function LostIn(c: Codec, s: Store, ops: seq<Op>): Option<Mutation> {
    if ops == [] then None else
    var before, op := ops[..|ops| - 1], ops[|ops| - 1];
    match op
    case Mutate(m, expected, io) =>
      if io.Lost? && Refusal(c, Life(c, s, before), m, expected).None? then Some(m) else LostIn(c, s, before)
    case Crash(_, _) => None
  }

  /** The mutation a crash after `ops` finds under way: the one whose commit failed and poisoned
      the store, or else the one being written. */
  ghost function InFlight(c: Codec, s: Store, ops: seq<Op>, m: Mutation): Option<Mutation> {
    if Life(c, s, ops).poisoned then LostIn(c, s, ops)
    else if Refusal(c, Life(c, s, ops), m, None).None? then Some(m) else None
  }

  /** `ms` is what a life must leave: every commit that was acknowledged, in order, and at each
      crash at most the one mutation that was in flight. */
  ghost predicate Accounts(c: Codec, s: Store, ops: seq<Op>, ms: seq<Mutation>) {
    if ops == [] then ms == [] else
    var before, op := ops[..|ops| - 1], ops[|ops| - 1];
    match op
    case Mutate(m, expected, io) =>
      if Commit(c, Life(c, s, before), m, expected, io).1.Ok?
      then ms != [] && ms[|ms| - 1] == m && Accounts(c, s, before, ms[..|ms| - 1])
      else Accounts(c, s, before, ms)
    case Crash(m, _) =>
      || Accounts(c, s, before, ms)
      || (ms != [] && InFlight(c, s, before, m) == Some(ms[|ms| - 1]) && Accounts(c, s, before, ms[..|ms| - 1]))
  }

  /** What a poisoned store's file holds beyond its history is part of the commit that failed. */
  ghost predicate LeftBehind(c: Codec, s: Store, ms: seq<Mutation>, lost: Option<Mutation>) {
    Within(c, ms) && (s.poisoned ==> lost.Some? && exists k :: Partial(c, s.disk, ms, lost.value, k))
  }

  lemma CommitLeavesBehind(c: Codec, s: Store, ms: seq<Mutation>, m: Mutation,
                           expected: Option<(DeviceId, nat)>, io: Persist, lost: Option<Mutation>)
    requires Consistent(c, s, ms) && LeftBehind(c, s, ms, lost)
    ensures var (s', r) := Commit(c, s, m, expected, io);
            LeftBehind(c, s', if r.Ok? then ms + [m] else ms,
                       if io.Lost? && Refusal(c, s, m, expected).None? then Some(m) else lost)
  {
    if Refusal(c, s, m, expected).None? {
      JournalExtends(c, ms, m);
      if io.Lost? {
        var k := if io.rolledBack then 0 else Min(io.kept, |Record(c, c.encode(m))|);
        assert Partial(c, Commit(c, s, m, expected, io).0.disk, ms, m, k);
      }
    }
  }

  /** Reopening after a crash at any point succeeds; the surviving history is the old one, or the
      old one with the mutation that was in flight. */
  lemma CrashRecovers(c: Codec, s: Store, ms: seq<Mutation>, m: Mutation, k: nat, lost: Option<Mutation>)
    returns (survived: seq<Mutation>)
    requires c.Sound() && Consistent(c, s, ms) && LeftBehind(c, s, ms, lost)
    ensures Reopen(c, CrashDisk(c, s, m, k)).Ok?
    ensures Consistent(c, Reopen(c, CrashDisk(c, s, m, k)).value, survived)
    ensures !Reopen(c, CrashDisk(c, s, m, k)).value.poisoned
    ensures s.poisoned ==> survived == ms || survived == ms + [lost.value]
    ensures !s.poisoned ==> survived == ms || (Refusal(c, s, m, None).None? && survived == ms + [m])
  {
    if s.poisoned {
      var k' :| Partial(c, s.disk, ms, lost.value, k');
      CrashAtomicity(c, ms, lost.value, k');
      survived := if k' == |Record(c, c.encode(lost.value))| then ms + [lost.value] else ms;
    } else if Refusal(c, s, m, None).Some? {
      MemoryIsReplayOfDisk(c, s, ms);
      survived := ms;
    } else {
      JournalExtends(c, ms, m);
      var record := Record(c, c.encode(m));
      CrashAtomicity(c, ms, m, Min(k, |record|));
      survived := if Min(k, |record|) == |record| then ms + [m] else ms;
    }
  }

  /** However commits, failed and unrollbackable commits, crashes and restarts follow each other,
      the store is the one a history leaves that has every acknowledged commit in order and, at
      each crash, at most the mutation that was in flight. */
  lemma {:induction false} EveryLifeIsConsistent(c: Codec, ops: seq<Op>) returns (ms: seq<Mutation>)
    requires c.Sound()
    ensures Consistent(c, Life(c, FreshStore, ops), ms) && Accounts(c, FreshStore, ops, ms)
    ensures LeftBehind(c, Life(c, FreshStore, ops), ms, LostIn(c, FreshStore, ops))
  {
    if ops == [] {
      ms := [];
    } else {
      var before, op := ops[..|ops| - 1], ops[|ops| - 1];
      var s := Life(c, FreshStore, before);
      var prior := EveryLifeIsConsistent(c, before);
      match op {
        case Mutate(m, expected, io) =>
          CommitKeepsConsistent(c, s, prior, m, expected, io);
          CommitLeavesBehind(c, s, prior, m, expected, io, LostIn(c, FreshStore, before));
          ms := if Commit(c, s, m, expected, io).1.Ok? then prior + [m] else prior;
        case Crash(m, k) =>
          ms := CrashRecovers(c, s, prior, m, k, LostIn(c, FreshStore, before));
      }
      assert ms != prior ==> ms[..|ms| - 1] == prior;
    }
  }

  /** So no acknowledged commit is ever lost: it is in the history every later life leaves. */
  lemma {:induction false} AcknowledgedSurvives(c: Codec, s: Store, ops: seq<Op>, ms: seq<Mutation>, i: nat)
    requires Accounts(c, s, ops, ms) && i < |ops| && ops[i].Mutate?
    requires Commit(c, Life(c, s, ops[..i]), ops[i].m, ops[i].expected, ops[i].io).1.Ok?
    ensures ops[i].m in ms
    decreases |ops|
  {
    var before := ops[..|ops| - 1];
    if i < |before| {
      assert before[..i] == ops[..i];
      var prior := if Accounts(c, s, before, ms) then ms else ms[..|ms| - 1];
      AcknowledgedSurvives(c, s, before, prior, i);
    }
  }

  // ----- the generation fence -----

  datatype Attempt = Attempt(m: Mutation, expected: Option<(DeviceId, nat)>, io: Persist)

  /** The states of one process's store under a series of commit attempts, oldest first. */
  ghost function After(c: Codec, s: Store, run: seq<Attempt>, i: nat): Store
    requires i <= |run|
  {
    if i == 0 then s else Commit(c, After(c, s, run, i - 1), run[i - 1].m, run[i - 1].expected, run[i - 1].io).0
  }

  ghost predicate Succeeds(c: Codec, s: Store, run: seq<Attempt>, i: nat)
    requires i < |run|
  {
    Commit(c, After(c, s, run, i), run[i].m, run[i].expected, run[i].io).1.Ok?
  }

  ghost function Forgets(c: Codec, s: Store, run: seq<Attempt>, d: DeviceId, i: nat): nat
    requires i <= |run|
  {
    if i == 0 then 0
    else Forgets(c, s, run, d, i - 1) + if run[i - 1].m == Forget(d) && Succeeds(c, s, run, i - 1) then 1 else 0
  }

  /** A generation counts the successful forgets exactly. It never saturates, because a store
      never holds more records than MAX_RECORDS. */
  lemma {:induction false} GenerationCountsForgets(c: Codec, s: Store, run: seq<Attempt>, d: DeviceId, i: nat)
    requires i <= |run|
    requires s.Generation(d) <= s.recordCount <= MAX_RECORDS
    ensures var t := After(c, s, run, i);
            && t.Generation(d) == s.Generation(d) + Forgets(c, s, run, d, i)
            && t.Generation(d) <= t.recordCount <= MAX_RECORDS
  {
    hide Record;
    if i > 0 {
      GenerationCountsForgets(c, s, run, d, i - 1);
    }
  }

  lemma {:induction false} ForgetsGrow(c: Codec, s: Store, run: seq<Attempt>, d: DeviceId, i: nat, j: nat)
    requires i <= j <= |run|
    ensures Forgets(c, s, run, d, i) <= Forgets(c, s, run, d, j)
    decreases j
  {
    hide After, Succeeds;
    if i < j {
      ForgetsGrow(c, s, run, d, i, j - 1);
    }
  }

  lemma RevokedStays(c: Codec, s: Store, a: Attempt, d: DeviceId)
    requires d in s.decisions && s.decisions[d].Revoked?
    requires a.m == Forget(d) ==> Commit(c, s, a.m, a.expected, a.io).1.Err?
    ensures var t := Commit(c, s, a.m, a.expected, a.io).0;
            d in t.decisions && t.decisions[d].Revoked?
  {
  }

  /** Revocation is sticky: from a successful revoke until a successful forget, the identity
      stays revoked. */
  lemma {:induction false} RevokedUntilForgotten(c: Codec, s: Store, run: seq<Attempt>, d: DeviceId, i: nat, j: nat)
    requires i < j <= |run| && run[i].m == Revoke(d) && Succeeds(c, s, run, i)
    requires Forgets(c, s, run, d, i) == Forgets(c, s, run, d, j)
    ensures d in After(c, s, run, j).decisions && After(c, s, run, j).decisions[d].Revoked?
    decreases j
  {
    hide Refusal, Record;
    if i + 1 < j {
      ForgetsGrow(c, s, run, d, i, j - 1);
      ForgetsGrow(c, s, run, d, j - 1, j);
      RevokedUntilForgotten(c, s, run, d, i, j - 1);
      RevokedStays(c, After(c, s, run, j - 1), run[j - 1], d);
    }
  }

  /** What a pairing's trust commit returns after `run`, with the generation it read in `s`. */
  ghost function FencedTrust(c: Codec, s: Store, run: seq<Attempt>, peer: TrustedPeer, io: Persist)
    : Result<(), TrustError>
  {
    var d := peer.deviceId;
    Commit(c, After(c, s, run, |run|), Trust(peer), Some((d, s.Generation(d))), io).1
  }

  /** GENERATION FENCE. A pairing admitted in `s` that later commits trust with the generation it
      read then succeeds only if no forget and no revoke of that peer succeeded in between. */
  lemma GenerationFence(c: Codec, s: Store, run: seq<Attempt>, peer: TrustedPeer, io: Persist, i: nat)
    requires s.GenerationsBounded() && s.recordCount <= MAX_RECORDS
    requires FencedTrust(c, s, run, peer, io).Ok?
    requires i < |run| && Succeeds(c, s, run, i)
    ensures run[i].m != Forget(peer.deviceId) && run[i].m != Revoke(peer.deviceId)
  {
    hide Forgets, After, Succeeds, Record;
    var d := peer.deviceId;
    GenerationCountsForgets(c, s, run, d, |run|);
    if run[i].m == Forget(d) {
      ForgetCounted(c, s, run, d, i);
      ForgetsGrow(c, s, run, d, i + 1, |run|);
    } else if run[i].m == Revoke(d) {
      ForgetsGrow(c, s, run, d, i, |run|);
      RevokedUntilForgotten(c, s, run, d, i, |run|);
    }
  }

  /** The refusal is exact: the commit is stale if and only if a forget succeeded in between. */
  lemma StaleExactlyAfterForget(c: Codec, s: Store, run: seq<Attempt>, peer: TrustedPeer, io: Persist)
    requires s.GenerationsBounded() && s.recordCount <= MAX_RECORDS
    requires Encodable(c, Trust(peer)) && !After(c, s, run, |run|).poisoned
    ensures FencedTrust(c, s, run, peer, io) == Err(StaleTrustAttempt)
       <==> exists i | 0 <= i < |run| :: run[i].m == Forget(peer.deviceId) && Succeeds(c, s, run, i)
  {
    hide Forgets, After, Succeeds, Record;
    var d := peer.deviceId;
    GenerationCountsForgets(c, s, run, d, |run|);
    if Forgets(c, s, run, d, |run|) > 0 {
      SomeForget(c, s, run, d, |run|);
    }
    forall i | 0 <= i < |run| && run[i].m == Forget(d) && Succeeds(c, s, run, i)
      ensures Forgets(c, s, run, d, |run|) > 0
    {
      ForgetCounted(c, s, run, d, i);
      ForgetsGrow(c, s, run, d, i + 1, |run|);
    }
  }

  lemma ForgetCounted(c: Codec, s: Store, run: seq<Attempt>, d: DeviceId, i: nat)
    requires i < |run| && run[i].m == Forget(d) && Succeeds(c, s, run, i)
    ensures Forgets(c, s, run, d, i + 1) > 0
  {
  }

  lemma {:induction false} SomeForget(c: Codec, s: Store, run: seq<Attempt>, d: DeviceId, n: nat)
    requires n <= |run| && Forgets(c, s, run, d, n) > 0
    ensures exists i | 0 <= i < n :: run[i].m == Forget(d) && Succeeds(c, s, run, i)
  {
    hide After, Succeeds;
    if !(run[n - 1].m == Forget(d) && Succeeds(c, s, run, n - 1)) {
      SomeForget(c, s, run, d, n - 1);
    }
  }
}
