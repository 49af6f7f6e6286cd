/** The payload loops of rift-transfer over files and streams that read and write in pieces of any
    size and may fail, be cancelled or time out at any step. */
module Streaming {
  import opened Common
  import opened Transfers

  const STREAM_BUFFER_SIZE: nat := 65536
  const PROGRESS_UNIT: nat := 1048576

  /** `Broken` is any I/O failure, cancellation or idle timeout. */
  datatype IoError =
    | Broken | InvalidRange | ChangedSource | ShortPayload | ExtraPayload | DigestMismatch | InvalidPartial

  /** The bytes of a file after writing `data` at `pos`. */
  function Overwritten(content: seq<byte>, pos: nat, data: seq<byte>): seq<byte>
    requires pos <= |content|
  {
    content[..pos] + data + if pos + |data| < |content| then content[pos + |data|..] else []
  }

  /** A seekable file. Any operation may fail, which `failed` records; a failed write may have
      written any part of its data, and one that takes nothing counts as failed.
      A file that is not steady may also be rewritten by someone else before any read. (One cut
      shorter than the position reads as at its end, so it may as well end there.) */
  class File {
    const steady: bool
    var content: seq<byte>
    var pos: nat
    var failed: bool

    predicate Valid()
      reads this
    {
      pos <= |content|
    }

    constructor (content: seq<byte>, steady: bool)
      ensures Valid() && this.content == content && pos == 0 && this.steady == steady && !failed
    {
      this.content, this.steady, pos, failed := content, steady, 0, false;
    }

    method SeekStart() returns (ok: bool)
      requires Valid()
      modifies this`pos, this`failed
      ensures Valid() && (ok ==> pos == 0) && failed == (old(failed) || !ok)
    {
      ok := *;
      if ok {
        pos := 0;
      } else {
        failed := true;
      }
    }

    method SeekEnd() returns (end: Option<nat>)
      requires Valid()
      modifies this`pos, this`failed
      ensures Valid() && (end.Some? ==> pos == end.value == |content|) && failed == (old(failed) || end.None?)
    {
      var ok: bool := *;
      if ok {
        pos := |content|;
        return Some(pos);
      }
      failed := true;
      return None;
    }

    method Read(max: nat) returns (chunk: Option<seq<byte>>)
      requires Valid()
      modifies this
      ensures Valid() && old(pos) <= pos && (steady ==> content == old(content)) && failed == (old(failed) || chunk.None?)
      ensures chunk.Some? ==> chunk.value == content[old(pos)..pos] && |chunk.value| <= max
      ensures chunk.Some? ==> (chunk.value == [] <==> max == 0 || old(pos) == |content|)
    {
      if !steady {
        var rewritten: seq<byte> :| pos <= |rewritten|;
        content := rewritten;
      }
      var ok: bool := *;
      if !ok {
        failed := true;
        return None;
      }
      var most := Min(max, |content| - pos);
      if most == 0 {
        return Some([]);
      }
      var n: nat :| 0 < n <= most;
      chunk := Some(content[pos..pos + n]);
      pos := pos + n;
    }

    method Write(data: seq<byte>) returns (written: Option<nat>)
      requires Valid()
      modifies this
      ensures Valid() && old(pos) <= pos <= old(pos) + |data|
      ensures content == Overwritten(old(content), old(pos), data[..pos - old(pos)])
      ensures written.Some? ==> pos == old(pos) + written.value
      ensures failed == (old(failed) || written.None? || (data != [] && written.value == 0))
    {
      var n: nat :| n <= |data|;
      content := Overwritten(content, pos, data[..n]);
      pos := pos + n;
      var ok: bool := *;
      failed := failed || !ok || (data != [] && n == 0);
      return if ok then Some(n) else None;
    }

    method Flush() returns (ok: bool)
      modifies this`failed
      ensures failed == (old(failed) || !ok)
    {
      ok := *;
      failed := failed || !ok;
    }
  }

  /** A byte stream: written at one end, read at the other up to a clean end. `failed` records that
      an operation failed. */
  class Pipe {
    var bytes: seq<byte>
    var pos: nat
    var failed: bool

    predicate Valid()
      reads this
    {
      pos <= |bytes|
    }

    constructor (bytes: seq<byte>)
      ensures Valid() && this.bytes == bytes && pos == 0 && !failed
    {
      this.bytes, pos, failed := bytes, 0, false;
    }

    method Read(max: nat) returns (chunk: Option<seq<byte>>)
      requires Valid()
      modifies this`pos, this`failed
      ensures Valid() && old(pos) <= pos && failed == (old(failed) || chunk.None?)
      ensures chunk.Some? ==> chunk.value == bytes[old(pos)..pos] && |chunk.value| <= max
      ensures chunk.Some? ==> (chunk.value == [] <==> max == 0 || old(pos) == |bytes|)
    {
      var ok: bool := *;
      if !ok {
        failed := true;
        return None;
      }
      var most := Min(max, |bytes| - pos);
      if most == 0 {
        return Some([]);
      }
      var n: nat :| 0 < n <= most;
      chunk := Some(bytes[pos..pos + n]);
      pos := pos + n;
    }

    method Write(data: seq<byte>) returns (written: Option<nat>)
      requires Valid()
      modifies this`bytes, this`failed
      ensures Valid() && |old(bytes)| <= |bytes| <= |old(bytes)| + |data|
      ensures bytes == old(bytes) + data[..|bytes| - |old(bytes)|]
      ensures written.Some? ==> |bytes| == |old(bytes)| + written.value
      ensures failed == (old(failed) || written.None? || (data != [] && written.value == 0))
    {
      var n: nat :| n <= |data|;
      bytes := bytes + data[..n];
      var ok: bool := *;
      failed := failed || !ok || (data != [] && n == 0);
      return if ok then Some(n) else None;
    }
  }

  // ----- progress -----

  function Latest(calls: seq<nat>, offset: nat): nat {
    if calls == [] then offset else calls[|calls| - 1]
  }

  /** Reports progress at most once per step, a hundredth of the file or a mebibyte. */
  class Progress {
    const total: nat
    const offset: nat
    const step: nat
    var last: nat
    var calls: seq<nat>

    /** Reported totals are increasing, a step apart, and end with `last`; the step is the least
        allowed. */
    ghost predicate Valid()
      reads this
    {
      && step >= PROGRESS_UNIT && 100 * step >= total && (step == PROGRESS_UNIT || 100 * (step - 1) < total)
      && offset <= last <= total && |calls| * step <= last - offset && last == Latest(calls, offset)
      && (forall i | 0 <= i < |calls| :: offset < calls[i] <= last)
      && (forall i, j | 0 <= i < j < |calls| :: calls[i] + step <= calls[j])
    }

    constructor (total: nat, offset: nat)
      requires offset <= total
      ensures Valid() && this.total == total && this.offset == offset && last == offset && calls == []
    {
      this.total, this.offset := total, offset;
      step := Max(PROGRESS_UNIT, (total + 99) / 100);
      last, calls := offset, [];
    }

    method Observe(now: nat)
      requires Valid() && last <= now <= total
      modifies this
      ensures Valid() && last <= now < last + step
      ensures calls == if now - old(last) >= step then old(calls) + [now] else old(calls)
    {
      if now - last >= step {
        Advance(|calls|, step, last - offset, now - last);
        last := now;
        calls := calls + [now];
      }
    }
  }

  lemma Advance(n: nat, step: nat, before: nat, more: nat)
    requires n * step <= before && step <= more
    ensures (n + 1) * step <= before + more
  {
  }

  // ----- hashing -----

  method HashPrefix(reader: File, length: nat, fed: seq<byte>) returns (r: Result<seq<byte>, IoError>)
    requires reader.Valid()
    modifies reader
    ensures reader.Valid() && (reader.steady ==> reader.content == old(reader.content))
    ensures reader.failed == (old(reader.failed) || r == Err(Broken))
    ensures r != Err(Broken) ==> r == Err(ChangedSource) || r.Ok?
    ensures r != Err(Broken) ==> (r.Ok? <==> old(reader.pos) + length <= |reader.content|)
    ensures r.Ok? ==> reader.pos == old(reader.pos) + length && fed <= r.value && |r.value| == |fed| + length
    ensures r.Ok? && reader.steady ==> r.value == fed + reader.content[old(reader.pos)..reader.pos]
  {
    var remaining: nat, hashed := length, fed;
    while remaining != 0
      invariant reader.Valid() && remaining <= length && reader.pos == old(reader.pos) + (length - remaining)
      invariant fed <= hashed && |hashed| == |fed| + (length - remaining) && reader.failed == old(reader.failed)
      invariant reader.steady ==>
        reader.content == old(reader.content) && hashed == fed + reader.content[old(reader.pos)..reader.pos]
    {
      var chunk := reader.Read(Min(remaining, STREAM_BUFFER_SIZE));
      if chunk.None? {
        return Err(Broken);
      }
      if chunk.value == [] {
        return Err(ChangedSource);
      }
      assert reader.content[old(reader.pos)..reader.pos - |chunk.value|] + chunk.value == reader.content[old(reader.pos)..reader.pos];
      hashed := hashed + chunk.value;
      remaining := remaining - |chunk.value|;
    }
    return Ok(hashed);
  }

  method RequireEof(reader: File) returns (r: Result<(), IoError>)
    requires reader.Valid()
    modifies reader
    ensures reader.Valid() && (reader.steady ==> reader.content == old(reader.content))
    ensures reader.failed == (old(reader.failed) || r == Err(Broken))
    ensures r != Err(Broken) ==> r == if old(reader.pos) == |reader.content| then Ok(()) else Err(ChangedSource)
  {
    var extra := reader.Read(1);
    if extra.None? {
      return Err(Broken);
    }
    return if extra.value == [] then Ok(()) else Err(ChangedSource);
  }

  /** The digest of what one pass over the source read, if and only if the source then ended exactly
      at the expected length, or an operation failed. `read` is what that pass read. */
  method HashSource(source: File, byteLen: nat, hash: seq<byte> -> seq<byte>)
    returns (r: Result<seq<byte>, IoError>, ghost read: seq<byte>)
    requires source.Valid()
    modifies source
    ensures source.Valid() && (source.steady ==> source.content == old(source.content))
    ensures source.failed == (old(source.failed) || r == Err(Broken))
    ensures r == Err(InvalidRange) <==> byteLen > MAX_TRANSFER_BYTES
    ensures r != Err(Broken) && byteLen <= MAX_TRANSFER_BYTES ==>
              if |source.content| == byteLen then r == Ok(hash(read)) else r == Err(ChangedSource)
    ensures r.Ok? ==> |read| == byteLen && r.value == hash(read) && (source.steady ==> read == source.content)
    ensures r.Err? ==> read == []
  {
    read := [];
    if byteLen > MAX_TRANSFER_BYTES {
      return Err(InvalidRange), read;
    }
    var ok := source.SeekStart();
    if !ok {
      return Err(Broken), read;
    }
    var fed := HashPrefix(source, byteLen, []);
    if fed.Err? {
      return Err(fed.error), read;
    }
    var end := RequireEof(source);
    if end.Err? {
      return Err(end.error), read;
    }
    assert source.steady ==> fed.value == source.content;
    return Ok(hash(fed.value)), fed.value;
  }

  // ----- sending -----

  /** The totals reported are at most a hundred, increasing, and within the suffix. */
  predicate Reports(calls: seq<nat>, offset: nat, total: nat) {
    && |calls| <= 100 && (forall i | 0 <= i < |calls| :: offset < calls[i] <= total)
    && (forall i, j | 0 <= i < j < |calls| :: calls[i] < calls[j])
  }

  /** Less than a mebibyte, or less than a hundredth of the file, is unreported. */
  predicate Current(calls: seq<nat>, offset: nat, total: nat) {
    total - Latest(calls, offset) < PROGRESS_UNIT || 100 * (total - Latest(calls, offset)) < total + 100
  }

  lemma NothingReported(offset: nat, total: nat)
    ensures Reports([], offset, total)
  {
  }

  lemma ValidReports(p: Progress)
    requires p.Valid()
    ensures Reports(p.calls, p.offset, p.total)
    ensures p.total < p.last + p.step ==> Current(p.calls, p.offset, p.total)
  {
    AtMostHundred(|p.calls|, p.step, p.total);
  }

  lemma AtMostHundred(n: nat, step: nat, total: nat)
    requires 0 < step && n * step <= total <= 100 * step
    ensures n <= 100
  {
  }

  /** The stream got exactly the source bytes from `offset` on, as far as `to`. */
  predicate Sent(before: seq<byte>, now: seq<byte>, content: seq<byte>, offset: nat, to: nat) {
    offset <= to <= |content| && now == before + content[offset..to]
  }

  lemma AtEnd(content: seq<byte>, data: seq<byte>)
    ensures forall n: nat | n <= |data| :: Overwritten(content, |content|, data[..n]) == content + data[..n]
  {
  }

  lemma Piecewise(before: seq<byte>, data: seq<byte>, written: nat, n: nat)
    requires written + n <= |data|
    ensures before + data[..written] + data[written..][..n] == before + data[..written + n]
  {
  }

  /** Writes one buffer to the stream, in however many pieces the stream takes it. */
  method WriteBuffer(stream: Pipe, data: seq<byte>, progress: Progress, start: nat) returns (ok: bool)
    requires stream.Valid() && progress.Valid() && progress.last <= start < progress.last + progress.step
    requires start + |data| <= progress.total
    modifies stream`bytes, stream`failed, progress
    ensures stream.Valid() && progress.Valid() && progress.last <= start + |data|
    ensures ok ==> start + |data| < progress.last + progress.step
    ensures stream.failed == (old(stream.failed) || !ok)
    ensures |old(stream.bytes)| <= |stream.bytes| <= |old(stream.bytes)| + |data|
    ensures stream.bytes == old(stream.bytes) + data[..|stream.bytes| - |old(stream.bytes)|]
    ensures ok ==> stream.bytes == old(stream.bytes) + data
  {
    hide Progress.Valid, Overwritten;
    var written := 0;
    while written < |data|
      invariant 0 <= written <= |data| && stream.Valid() && progress.Valid()
      invariant progress.last <= start + written < progress.last + progress.step
      invariant stream.bytes == old(stream.bytes) + data[..written] && stream.failed == old(stream.failed)
    {
      var count := stream.Write(data[written..]);
      Piecewise(old(stream.bytes), data, written, |stream.bytes| - |old(stream.bytes)| - written);
      if count.None? || count.value == 0 {
        return false;
      }
      written := written + count.value;
      progress.Observe(start + written);
    }
    assert data[..written] == data;
    return true;
  }

  /** Sends a source from `offset` on, in two passes: `first` is what the first pass hashed, and
      `second` what the second pass hashed, its prefix unsent and the rest sent. Nothing is sent
      unless the first pass found the offered length and digest. Whatever happens, what was sent
      is what the second pass read past the offset, as far as it goes; success means that the
      prefix it skipped and the bytes it sent together have the offered length and digest, even
      if the file was rewritten in between. Unless an operation failed it does succeed then. */
  method SendPayload(source: File, stream: Pipe, metadata: Metadata, offset: nat, hash: seq<byte> -> seq<byte>)
    returns (r: Result<(), IoError>, calls: seq<nat>, ghost first: seq<byte>, ghost second: seq<byte>)
    requires source.Valid() && stream.Valid()
    modifies source, stream`bytes, stream`failed
    ensures source.Valid() && stream.Valid() && (source.steady ==> source.content == old(source.content))
    ensures (source.failed || stream.failed) == (old(source.failed) || old(stream.failed) || r == Err(Broken))
    ensures var n := |stream.bytes| - |old(stream.bytes)|;
            n >= 0 && (n > 0 ==> Sent(old(stream.bytes), stream.bytes, second, offset, offset + n))
    ensures stream.bytes != old(stream.bytes) || r.Ok? ==> |first| == metadata.byteLen && hash(first) == metadata.digest
    ensures r.Ok? ==>
      && offset <= metadata.byteLen == |second| && hash(second) == metadata.digest
      && Sent(old(stream.bytes), stream.bytes, second, offset, metadata.byteLen)
    ensures source.steady ==> second <= source.content && (first == [] || first == source.content)
    ensures r == Err(InvalidRange) <==> offset > metadata.byteLen || metadata.byteLen > MAX_TRANSFER_BYTES
    ensures r in {Ok(()), Err(Broken), Err(InvalidRange), Err(ChangedSource)}
    ensures r == Err(ChangedSource) ==>
              |source.content| != metadata.byteLen || hash(first) != metadata.digest || hash(second) != metadata.digest
    ensures source.steady && offset <= metadata.byteLen <= MAX_TRANSFER_BYTES && r != Err(Broken) ==>
              (r.Ok? <==> |source.content| == metadata.byteLen && hash(source.content) == metadata.digest)
    ensures offset <= metadata.byteLen ==> Reports(calls, offset, metadata.byteLen)
    ensures r.Ok? ==> Current(calls, offset, metadata.byteLen)
  {
    hide Sent, Reports, Current;
    calls, first, second := [], [], [];
    NothingReported(offset, metadata.byteLen);
    if offset > metadata.byteLen {
      r := Err(InvalidRange);
      return;
    }
    var digest, read := HashSource(source, metadata.byteLen, hash);
    if digest.Err? {
      r := Err(digest.error);
      return;
    }
    first := read;
    if digest.value != metadata.digest {
      r := Err(ChangedSource);
      return;
    }
    var ok := source.SeekStart();
    if !ok {
      r := Err(Broken);
      return;
    }
    var prefix := HashPrefix(source, offset, []);
    if prefix.Err? {
      r := Err(prefix.error);
      return;
    }
    assert source.steady ==> prefix.value == source.content[..offset];
    r, calls, second := SendRest(source, stream, metadata, offset, prefix.value, hash);
  }

  /** The sending loop, once the prefix of the second pass is hashed. */
  method SendRest(source: File, stream: Pipe, metadata: Metadata, offset: nat, prefix: seq<byte>, hash: seq<byte> -> seq<byte>)
    returns (r: Result<(), IoError>, calls: seq<nat>, ghost second: seq<byte>)
    requires source.Valid() && stream.Valid() && source.pos == offset == |prefix| <= metadata.byteLen
    requires source.steady ==> metadata.byteLen == |source.content| && prefix == source.content[..offset]
    modifies source, stream`bytes, stream`failed
    ensures source.Valid() && stream.Valid() && Reports(calls, offset, metadata.byteLen)
    ensures (source.failed || stream.failed) == (old(source.failed) || old(stream.failed) || r == Err(Broken))
    ensures source.steady ==> source.content == old(source.content) && second <= source.content
    ensures var n := |stream.bytes| - |old(stream.bytes)|;
            n >= 0 && Sent(old(stream.bytes), stream.bytes, second, offset, offset + n)
    ensures r.Ok? ==> |second| == metadata.byteLen && hash(second) == metadata.digest
                      && Sent(old(stream.bytes), stream.bytes, second, offset, metadata.byteLen)
    ensures r in {Ok(()), Err(Broken), Err(ChangedSource)} && (r.Ok? ==> Current(calls, offset, metadata.byteLen))
    ensures r == Err(ChangedSource) ==> |source.content| != metadata.byteLen || hash(second) != metadata.digest
    ensures r != Err(Broken) && source.steady ==> second == source.content
  {
    hide Sent, Reports, Current;
    var progress := new Progress(metadata.byteLen, offset);
    SentNothing(stream.bytes, prefix, offset);
    var hashed: seq<byte>, broken: Option<IoError>;
    broken, hashed := SendLoop(source, stream, progress, prefix);
    ValidReports(progress);
    calls, second := progress.calls, hashed;
    if broken.Some? {
      return Err(broken.value), calls, second;
    }
    var end := RequireEof(source);
    if end.Err? {
      return Err(end.error), calls, second;
    }
    assert source.steady ==> hashed == source.content;
    return if hash(hashed) == metadata.digest then Ok(()) else Err(ChangedSource), calls, second;
  }

  /** Sends on from `prefix` to the expected length; `hashed` is what was hashed in all. */
  method SendLoop(source: File, stream: Pipe, progress: Progress, prefix: seq<byte>)
    returns (broken: Option<IoError>, hashed: seq<byte>)
    requires source.Valid() && stream.Valid() && progress.Valid() && progress.step > 0
    requires source.pos == progress.offset == progress.last == |prefix| <= progress.total
    requires source.steady ==> progress.total == |source.content| && prefix <= source.content
    modifies source, stream`bytes, stream`failed, progress
    ensures source.Valid() && stream.Valid() && progress.Valid()
    ensures (source.failed || stream.failed) == (old(source.failed) || old(stream.failed) || broken == Some(Broken))
    ensures broken in {None, Some(Broken), Some(ChangedSource)}
    ensures source.steady ==> source.content == old(source.content) && hashed <= source.content && broken != Some(ChangedSource)
    ensures var n := |stream.bytes| - |old(stream.bytes)|;
            n >= 0 && Sent(old(stream.bytes), stream.bytes, hashed, progress.offset, progress.offset + n)
    ensures broken == Some(ChangedSource) ==> |source.content| < progress.total
    ensures broken.None? ==>
      && |hashed| == source.pos == progress.total < progress.last + progress.step
      && |stream.bytes| == |old(stream.bytes)| + progress.total - progress.offset
  {
    hide Sent, Progress.Valid;
    hashed := prefix;
    SentNothing(stream.bytes, prefix, |prefix|);
    var total := |prefix|;
    while total < progress.total
      invariant source.Valid() && stream.Valid() && progress.Valid() && progress.offset <= total <= progress.total
      invariant source.pos == total && progress.last <= total < progress.last + progress.step
      invariant |hashed| == total && |stream.bytes| == |old(stream.bytes)| + (total - progress.offset)
      invariant source.failed == old(source.failed) && stream.failed == old(stream.failed)
      invariant Sent(old(stream.bytes), stream.bytes, hashed, progress.offset, total)
      invariant source.steady ==> source.content == old(source.content) && hashed <= source.content
    {
      var chunk := source.Read(Min(progress.total - total, STREAM_BUFFER_SIZE));
      if chunk.None? {
        return Some(Broken), hashed;
      }
      if chunk.value == [] {
        return Some(ChangedSource), hashed;
      }
      PrefixGrows(source.content, hashed, chunk.value);
      ghost var sofar := stream.bytes;
      var ok := WriteBuffer(stream, chunk.value, progress, total);
      SentMore(old(stream.bytes), sofar, stream.bytes, hashed, progress.offset, chunk.value);
      hashed := hashed + chunk.value;
      if !ok {
        return Some(Broken), hashed;
      }
      total := total + |chunk.value|;
    }
    return None, hashed;
  }

  lemma PrefixGrows(content: seq<byte>, hashed: seq<byte>, chunk: seq<byte>)
    ensures hashed <= content && |hashed| + |chunk| <= |content| && chunk == content[|hashed|..|hashed| + |chunk|] ==>
              hashed + chunk <= content
  {
  }

  lemma SentNothing(before: seq<byte>, hashed: seq<byte>, offset: nat)
    requires offset <= |hashed|
    ensures Sent(before, before, hashed, offset, offset)
  {
  }

  lemma SentMore(before: seq<byte>, sofar: seq<byte>, now: seq<byte>, hashed: seq<byte>, offset: nat, chunk: seq<byte>)
    requires Sent(before, sofar, hashed, offset, |hashed|)
    requires |sofar| <= |now| <= |sofar| + |chunk| && now == sofar + chunk[..|now| - |sofar|]
    ensures Sent(before, now, hashed + chunk, offset, |hashed| + (|now| - |sofar|))
  {
    assert (hashed + chunk)[offset..|hashed| + (|now| - |sofar|)] == hashed[offset..] + chunk[..|now| - |sofar|];
  }

  // ----- receiving -----

  /** Appends one buffer to the staging file, in however many pieces the file takes it. */
  method AppendBuffer(staging: File, data: seq<byte>, progress: Progress, start: nat) returns (ok: bool)
    requires staging.Valid() && staging.pos == |staging.content|
    requires progress.Valid() && progress.last <= start < progress.last + progress.step && start + |data| <= progress.total
    modifies staging, progress
    ensures staging.Valid() && staging.pos == |staging.content| && progress.Valid() && progress.last <= start + |data|
    ensures staging.failed == (old(staging.failed) || !ok) && (ok ==> start + |data| < progress.last + progress.step)
    ensures |old(staging.content)| <= |staging.content| <= |old(staging.content)| + |data|
    ensures staging.content == old(staging.content) + data[..|staging.content| - |old(staging.content)|]
    ensures ok ==> staging.content == old(staging.content) + data
  {
    hide Progress.Valid, Overwritten;
    var written := 0;
    while written < |data|
      invariant 0 <= written <= |data| && staging.pos == |staging.content| && progress.Valid()
      invariant progress.last <= start + written < progress.last + progress.step
      invariant staging.content == old(staging.content) + data[..written]
      invariant staging.failed == old(staging.failed)
    {
      AtEnd(staging.content, data[written..]);
      var count := staging.Write(data[written..]);
      Piecewise(old(staging.content), data, written, |staging.content| - |old(staging.content)| - written);
      if count.None? || count.value == 0 {
        return false;
      }
      written := written + count.value;
      progress.Observe(start + written);
    }
    assert data[..written] == data;
    return true;
  }

  /** The file grew by the stream's bytes from `pos`, as far as they were read. */
  predicate Grew(before: seq<byte>, now: seq<byte>, bytes: seq<byte>, pos: nat) {
    |before| <= |now| && pos + (|now| - |before|) <= |bytes| && now == before + bytes[pos..pos + (|now| - |before|)]
  }

  lemma GrewWhole(before: seq<byte>, now: seq<byte>, bytes: seq<byte>, pos: nat)
    requires Grew(before, now, bytes, pos)
    ensures |now| == |before| + |bytes| - pos ==> now == before + bytes[pos..]
  {
  }

  lemma GrewMore(before: seq<byte>, sofar: seq<byte>, now: seq<byte>, bytes: seq<byte>, pos: nat, chunk: seq<byte>)
    requires Grew(before, sofar, bytes, pos)
    requires var at := pos + (|sofar| - |before|); at + |chunk| <= |bytes| && chunk == bytes[at..at + |chunk|]
    requires |sofar| <= |now| <= |sofar| + |chunk| && now == sofar + chunk[..|now| - |sofar|]
    ensures Grew(before, now, bytes, pos)
  {
  }

  /** The staging file holds exactly the accepted prefix. */
  predicate Agreed(staged: seq<byte>, metadata: Metadata, offset: nat) {
    |staged| == offset <= metadata.byteLen
  }

  /** Appends an accepted suffix to the staging file, which is this attempt's alone. For any peer and
      any stream: what was staged before is untouched, and what is appended is what the stream
      carried, as far as it was read. A file of another length than the offset is never touched.
      Unless an operation failed, the answer is decided by the file and the stream alone: success
      if and only if the two together have the expected length and digest, and each error exactly
      for its own cause. */
  method ReceivePayload(stream: Pipe, staging: File, metadata: Metadata, offset: nat, hash: seq<byte> -> seq<byte>)
    returns (r: Result<(), IoError>, calls: seq<nat>)
    requires stream.Valid() && staging.Valid() && staging.steady
    modifies stream`pos, stream`failed, staging
    ensures stream.Valid() && staging.Valid()
    ensures (stream.failed || staging.failed) == (old(stream.failed) || old(staging.failed) || r == Err(Broken))
    ensures |old(staging.content)| != offset ==> r.Err? && staging.content == old(staging.content)
    ensures Grew(old(staging.content), staging.content, stream.bytes, old(stream.pos))
    ensures r.Ok? ==> staging.content == old(staging.content) + stream.bytes[old(stream.pos)..]
    ensures r == Err(InvalidRange) <==> offset > metadata.byteLen
    ensures r != Err(Broken) ==> (r == Err(InvalidPartial) <==> offset <= metadata.byteLen && |old(staging.content)| != offset)
    ensures r != Err(Broken) && Agreed(old(staging.content), metadata, offset) ==>
              var whole := old(staging.content) + stream.bytes[old(stream.pos)..];
              && (r.Ok? <==> |whole| == metadata.byteLen && hash(whole) == metadata.digest)
              && (r == Err(ShortPayload) <==> |whole| < metadata.byteLen)
              && (r == Err(ExtraPayload) <==> |whole| > metadata.byteLen)
              && (r == Err(DigestMismatch) <==> |whole| == metadata.byteLen && hash(whole) != metadata.digest)
    ensures r.Err? && r.error in {InvalidRange, InvalidPartial} ==> staging.content == old(staging.content)
    ensures offset <= metadata.byteLen ==> Reports(calls, offset, metadata.byteLen)
    ensures r.Ok? ==> Current(calls, offset, metadata.byteLen)
  {
    calls := [];
    if offset > metadata.byteLen {
      return Err(InvalidRange), calls;
    }
    var actual := staging.SeekEnd();
    if actual.None? {
      return Err(Broken), calls;
    }
    if actual.value != offset {
      return Err(InvalidPartial), calls;
    }
    var ok := staging.SeekStart();
    if !ok {
      return Err(Broken), calls;
    }
    var prefix := HashPrefix(staging, offset, []);
    if prefix.Err? {
      return Err(if prefix.error == ChangedSource then InvalidPartial else prefix.error), calls;
    }
    assert prefix.value == staging.content;
    r, calls := ReceiveRest(stream, staging, metadata, offset, prefix.value, hash);
    GrewWhole(old(staging.content), staging.content, stream.bytes, old(stream.pos));
  }

  /** The receiving loop, over a staging file of length `offset` that is hashed. */
  method ReceiveRest(stream: Pipe, staging: File, metadata: Metadata, offset: nat, prefix: seq<byte>, hash: seq<byte> -> seq<byte>)
    returns (r: Result<(), IoError>, calls: seq<nat>)
    requires stream.Valid() && staging.Valid() && staging.steady && prefix == staging.content
    requires staging.pos == |staging.content| == offset <= metadata.byteLen
    modifies stream`pos, stream`failed, staging
    ensures stream.Valid() && staging.Valid() && Reports(calls, offset, metadata.byteLen)
    ensures (stream.failed || staging.failed) == (old(stream.failed) || old(staging.failed) || r == Err(Broken))
    ensures r.Ok? ==> Current(calls, offset, metadata.byteLen)
    ensures Grew(old(staging.content), staging.content, stream.bytes, old(stream.pos))
    ensures var left := |stream.bytes| - old(stream.pos);
            r != Err(Broken) ==>
              if offset + left < metadata.byteLen then r == Err(ShortPayload)
              else if offset + left > metadata.byteLen then r == Err(ExtraPayload)
              else |staging.content| == metadata.byteLen
                   && r == if hash(staging.content) == metadata.digest then Ok(()) else Err(DigestMismatch)
  {
    hide Reports, Current;
    var progress := new Progress(metadata.byteLen, offset);
    var broken, hashed := ReceiveLoop(stream, staging, progress);
    ValidReports(progress);
    calls := progress.calls;
    if broken.Some? {
      return Err(broken.value), calls;
    }
    var extra := stream.Read(1);
    if extra.None? {
      return Err(Broken), calls;
    }
    if extra.value != [] {
      return Err(ExtraPayload), calls;
    }
    if hash(prefix + hashed) != metadata.digest {
      return Err(DigestMismatch), calls;
    }
    var flushed := staging.Flush();
    r := if flushed then Ok(()) else Err(Broken);
  }

  /** Appends from the stream up to the expected length; `hashed` is what was appended. */
  method ReceiveLoop(stream: Pipe, staging: File, progress: Progress) returns (broken: Option<IoError>, hashed: seq<byte>)
    requires stream.Valid() && staging.Valid() && progress.Valid() && progress.step > 0
    requires staging.pos == |staging.content| == progress.offset == progress.last <= progress.total
    modifies stream`pos, stream`failed, staging, progress
    ensures stream.Valid() && staging.Valid() && progress.Valid()
    ensures (stream.failed || staging.failed) == (old(stream.failed) || old(staging.failed) || broken == Some(Broken))
    ensures broken in {None, Some(Broken), Some(ShortPayload)}
    ensures Grew(old(staging.content), staging.content, stream.bytes, old(stream.pos))
    ensures broken == Some(ShortPayload) ==> progress.offset + |stream.bytes| - old(stream.pos) < progress.total
    ensures broken.None? ==>
      && staging.content == old(staging.content) + hashed && |staging.content| == progress.total < progress.last + progress.step
      && stream.pos == old(stream.pos) + (progress.total - progress.offset)
  {
    hide Progress.Valid;
    hashed := [];
    var total := progress.offset;
    while total < progress.total
      invariant stream.Valid() && staging.pos == |staging.content| == total && progress.offset <= total <= progress.total
      invariant progress.Valid() && progress.last <= total < progress.last + progress.step
      invariant staging.content == old(staging.content) + hashed && stream.pos == old(stream.pos) + (total - progress.offset)
      invariant stream.failed == old(stream.failed) && staging.failed == old(staging.failed)
      invariant Grew(old(staging.content), staging.content, stream.bytes, old(stream.pos))
    {
      var chunk := stream.Read(Min(progress.total - total, STREAM_BUFFER_SIZE));
      if chunk.None? {
        return Some(Broken), hashed;
      }
      if chunk.value == [] {
        return Some(ShortPayload), hashed;
      }
      ghost var sofar := staging.content;
      var ok := AppendBuffer(staging, chunk.value, progress, total);
      GrewMore(old(staging.content), sofar, staging.content, stream.bytes, old(stream.pos), chunk.value);
      if !ok {
        return Some(Broken), hashed;
      }
      hashed := hashed + chunk.value;
      total := total + |chunk.value|;
    }
    return None, hashed;
  }
}
