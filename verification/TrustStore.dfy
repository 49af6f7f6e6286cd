/** Enumerating an ordered map page by page. */
module Paging {
  import opened Common

  /** The members of `keys` from `lo` up to but not including `hi`, in increasing order. */
  ghost function InRange(keys: set<DeviceId>, lo: nat, hi: nat): seq<DeviceId>
    requires lo <= hi <= ID_LIMIT
    decreases hi - lo
  {
    if lo == hi then [] else InRange(keys, lo, hi - 1) + if hi - 1 in keys then [hi - 1] else []
  }

  /** The order a B-tree map iterates in, from a lower bound on. */
  ghost function From(keys: set<DeviceId>, lo: nat): seq<DeviceId>
    requires lo <= ID_LIMIT
  {
    InRange(keys, lo, ID_LIMIT)
  }

  function Past(k: DeviceId): (lo: nat)
    ensures lo <= ID_LIMIT
  {
    var n: nat := k;
    n + 1
  }

  function Start(after: Option<DeviceId>): (lo: nat)
    ensures lo <= ID_LIMIT
  {
    if after.None? then 0 else Past(after.value)
  }

  predicate Increasing(s: seq<DeviceId>) {
    forall i, j | 0 <= i < j < |s| :: s[i] < s[j]
  }

  /** Every member in the range exactly once, in increasing order, and nothing else. */
  lemma {:induction false} InRangeIsEnumeration(keys: set<DeviceId>, lo: nat, hi: nat)
    requires lo <= hi <= ID_LIMIT
    ensures Increasing(InRange(keys, lo, hi))
    ensures forall k: DeviceId :: k in InRange(keys, lo, hi) <==> k in keys && lo <= k < hi
    decreases hi - lo
  {
    if lo < hi {
      InRangeIsEnumeration(keys, lo, hi - 1);
      if hi - 1 in keys {
        LargerLast(InRange(keys, lo, hi - 1), hi - 1);
      }
    }
  }

  lemma LargerLast(before: seq<DeviceId>, last: DeviceId)
    requires Increasing(before) && forall k | k in before :: k < last
    ensures Increasing(before + [last])
    ensures forall k: DeviceId :: k in before + [last] <==> k in before || k == last
  {
    assert forall i | 0 <= i < |before| :: before[i] in before;
  }

  lemma {:induction false} InRangeSplits(keys: set<DeviceId>, lo: nat, mid: nat, hi: nat)
    requires lo <= mid <= hi <= ID_LIMIT
    ensures InRange(keys, lo, hi) == InRange(keys, lo, mid) + InRange(keys, mid, hi)
    decreases hi - mid
  {
    if mid < hi {
      InRangeSplits(keys, lo, mid, hi - 1);
    }
  }

  lemma {:induction false} InRangeEmpty(keys: set<DeviceId>, lo: nat, hi: nat)
    requires lo <= hi <= ID_LIMIT
    requires forall k | k in keys :: !(lo <= k < hi)
    ensures InRange(keys, lo, hi) == []
    decreases hi - lo
  {
    if lo < hi {
      InRangeEmpty(keys, lo, hi - 1);
    }
  }

  /** The least member at or above `lo` heads the enumeration from `lo`. */
  lemma HeadOfFrom(keys: set<DeviceId>, lo: nat, k: DeviceId)
    requires lo <= k && k in keys
    requires forall x | x in keys && lo <= x :: k <= x
    ensures From(keys, lo) == [k] + From(keys, Past(k))
  {
    InRangeSplits(keys, lo, Past(k), ID_LIMIT);
    InRangeEmpty(keys, lo, k);
  }

  /** The next key at or above a bound, found by one pass over the keys. */
  method NextKey(keys: set<DeviceId>, lo: nat) returns (r: Option<DeviceId>)
    requires lo <= ID_LIMIT
    ensures r.None? ==> From(keys, lo) == [] && forall k | k in keys :: k < lo
    ensures r.Some? ==> r.value in keys && From(keys, lo) == [r.value] + From(keys, Past(r.value))
    ensures r.Some? ==> lo <= r.value && forall k | k in keys && lo <= k :: r.value <= k
  {
    var left := keys;
    r := None;
    while left != {}
      invariant left <= keys
      invariant r.Some? ==> r.value in keys && lo <= r.value
      invariant forall k | k in keys && k !in left && lo <= k :: r.Some? && r.value <= k
      decreases |left|
    {
      var k :| k in left;
      left := left - {k};
      if lo <= k && (r.None? || k < r.value) {
        r := Some(k);
      }
    }
    if r.Some? {
      HeadOfFrom(keys, lo, r.value);
    } else {
      InRangeEmpty(keys, lo, ID_LIMIT);
    }
  }
}

/** The trust store object: one open journal file and the state replayed from it. */
module TrustStores {
  import opened Common
  import opened TrustJournal
  import opened Paging

  const MAX_LIST_PAGE_SIZE: nat := 128

  datatype TrustEntry = TrustedEntry(peer: TrustedPeer) | RevokedEntry(deviceId: DeviceId)

  function EntryOf(d: DeviceId, decision: Decision): TrustEntry {
    match decision case Trusted(peer) => TrustedEntry(peer) case Revoked => RevokedEntry(d)
  }

  datatype TrustPage = TrustPage(entries: seq<TrustEntry>, nextCursor: Option<DeviceId>)

  function EntryAt(ds: Decisions, d: DeviceId): TrustEntry {
    if d in ds then EntryOf(d, ds[d]) else RevokedEntry(d)
  }

  /** Entries of the given keys, in the given order. */
  ghost function EntriesOf(ds: Decisions, keys: seq<DeviceId>): seq<TrustEntry> {
    seq(|keys|, i requires 0 <= i < |keys| => EntryAt(ds, keys[i]))
  }

  lemma EntriesOfParts(ds: Decisions, a: seq<DeviceId>, b: seq<DeviceId>)
    ensures EntriesOf(ds, a + b) == EntriesOf(ds, a) + EntriesOf(ds, b)
    ensures |EntriesOf(ds, a)| == |a| && |EntriesOf(ds, a + b)| == |a + b|
    ensures |b| == 1 ==> EntriesOf(ds, b) == [EntryAt(ds, b[0])]
  {
  }

  /** The page a bounded query must return: the next keys in order, with a cursor exactly when
      more remain. */
  ghost predicate IsPage(ds: Decisions, after: Option<DeviceId>, limit: nat, page: TrustPage)
    requires limit > 0
  {
    var n := Min(limit, MAX_LIST_PAGE_SIZE);
    var all := From(ds.Keys, Start(after));
    && page.entries == EntriesOf(ds, all[..Min(n, |all|)])
    && page.nextCursor == if |all| > n then Some(all[n - 1]) else None
  }

  /** Taking one entry more than the page holds and cutting it off gives the page. */
  lemma CutToPage(ds: Decisions, after: Option<DeviceId>, limit: nat, keys: seq<DeviceId>, rest: seq<DeviceId>)
    requires limit > 0 && From(ds.Keys, Start(after)) == keys + rest
    requires var n := Min(limit, MAX_LIST_PAGE_SIZE); |keys| <= n + 1 && (|keys| <= n ==> rest == [])
    ensures var n := Min(limit, MAX_LIST_PAGE_SIZE);
            IsPage(ds, after, limit, TrustPage(EntriesOf(ds, keys)[..Min(n, |keys|)],
                                               if |keys| > n then Some(keys[n - 1]) else None))
  {
  }

  /** `writeFailed` and `truncateFailed` record that an operation of the file system failed. */
  class TrustStore {
    const codec: Codec
    var file: seq<byte>
    var decisions: Decisions
    var fileLen: nat
    var recordCount: nat
    var generations: map<DeviceId, nat>
    var poisoned: bool
    var writeFailed: bool
    var truncateFailed: bool

    function View(): Store
      reads this
    {
      Store(file, decisions, fileLen, recordCount, generations, poisoned)
    }

    ghost predicate Valid()
      reads this
    {
      !poisoned ==> fileLen == |file|
    }

    constructor FromParts(codec: Codec, s: Store)
      requires !s.poisoned ==> s.fileLen == |s.disk|
      ensures Valid() && View() == s && this.codec == codec && !writeFailed && !truncateFailed
    {
      this.codec, writeFailed, truncateFailed := codec, false, false;
      file, decisions, fileLen, recordCount, generations, poisoned :=
        s.disk, s.decisions, s.fileLen, s.recordCount, s.generations, s.poisoned;
    }

    /** Appends a record. A failure can leave any part of it in the file, even all of it. */
    method PersistRecord(record: seq<byte>) returns (ok: bool, ghost kept: nat)
      modifies `file, `writeFailed
      ensures kept <= |record| && file == old(file) + record[..kept]
      ensures (ok ==> kept == |record|) && writeFailed == (old(writeFailed) || !ok)
    {
      var n: nat :| n <= |record|;
      file := file + record[..n];
      kept := n;
      ok := false;
      if n == |record| {
        ok :| true;
      }
      writeFailed := writeFailed || !ok;
    }

    /** Truncates back. When truncation or its sync fails, any length in between can remain. */
    method RollbackRecord(previousLen: nat) returns (ok: bool)
      requires previousLen <= |file|
      modifies `file, `truncateFailed
      ensures exists n :: previousLen <= n <= |old(file)| && file == old(file)[..n]
      ensures (ok ==> file == old(file)[..previousLen]) && truncateFailed == (old(truncateFailed) || !ok)
    {
      var n: nat :| previousLen <= n <= |file|;
      file := file[..n];
      ok := false;
      if n == previousLen {
        ok :| true;
      }
      truncateFailed := truncateFailed || !ok;
    }

    /** What happened to an append is what the file system did, and nothing else. */
    twostate predicate Suffered(io: Persist)
      reads this
    {
      && writeFailed == (old(writeFailed) || io.Lost?)
      && truncateFailed == (old(truncateFailed) || (io.Lost? && !io.rolledBack))
    }

    method Commit(m: Mutation, expected: Option<(DeviceId, nat)>)
      returns (r: Result<(), TrustError>, ghost io: Persist)
      requires Valid()
      modifies this
      ensures Valid() && Suffered(io)
      ensures (View(), r) == TrustJournal.Commit(codec, old(View()), m, expected, io)
    {
      hide Record, Apply, ValidMutation, TransitionAllowed;
      io := Written;
      if !ValidMutation(m) {
        return Err(MetadataTooLong), io;
      }
      var payload := codec.encode(m);
      if |payload| > MAX_RECORD_LEN {
        return Err(RecordTooLarge(0, |payload|)), io;
      }
      var record := Record(codec, payload);
      if poisoned {
        return Err(StorePoisoned), io;
      }
      if expected.Some? {
        var (d, g) := expected.value;
        var current := if d in generations then generations[d] else 0;
        if current != g {
          return Err(StaleTrustAttempt), io;
        }
      }
      if !TransitionAllowed(decisions, m) {
        return Err(RevokedIdentity(Target(m))), io;
      }
      if recordCount >= MAX_RECORDS {
        return Err(TooManyRecords), io;
      }
      var previousLen := fileLen;
      var nextLen := previousLen + |record|;
      if nextLen > MAX_STORE_SIZE {
        return Err(StoreTooLarge(nextLen)), io;
      }
      var ok, kept := PersistRecord(record);
      if !ok {
        poisoned := true;
        var rolledBack := RollbackRecord(previousLen);
        io := Lost(|file| - previousLen, rolledBack);
        assert file == old(file) + record[..|file| - previousLen];
        return Err(if rolledBack then CommitFailed else RollbackFailed), io;
      }
      assert record[..|record|] == record;
      decisions := Apply(decisions, m);
      if m.Forget? {
        var g := if m.deviceId in generations then generations[m.deviceId] else 0;
        generations := generations[m.deviceId := Min(g + 1, U64_MAX)];
      }
      fileLen := nextLen;
      recordCount := recordCount + 1;
      r := Ok(());
    }

    /** One page of decisions after an exclusive cursor. */
    method ListPage(after: Option<DeviceId>, limit: nat) returns (r: Result<TrustPage, TrustError>)
      ensures limit == 0 ==> r == Err(InvalidPageLimit)
      ensures limit > 0 ==> r.Ok? && IsPage(decisions, after, limit, r.value)
    {
      hide From, EntriesOf, IsPage;
      if limit == 0 {
        return Err(InvalidPageLimit);
      }
      var n := Min(limit, MAX_LIST_PAGE_SIZE);
      ghost var all := From(decisions.Keys, Start(after));
      var entries, keys: seq<DeviceId>, lo: nat := [], [], Start(after);
      EntriesOfParts(decisions, [], []);
      var key := NextKey(decisions.Keys, lo);
      while key.Some? && |keys| < n + 1
        invariant |keys| <= n + 1 && lo <= ID_LIMIT
        invariant all == keys + From(decisions.Keys, lo)
        invariant entries == EntriesOf(decisions, keys)
        invariant key.None? ==> From(decisions.Keys, lo) == []
        invariant key.Some? ==> key.value in decisions
        invariant key.Some? ==> From(decisions.Keys, lo) == [key.value] + From(decisions.Keys, Past(key.value))
        decreases n + 1 - |keys|
      {
        EntriesOfParts(decisions, keys, [key.value]);
        entries := entries + [EntryOf(key.value, decisions[key.value])];
        keys := keys + [key.value];
        lo := Past(key.value);
        key := NextKey(decisions.Keys, lo);
      }
      CutToPage(decisions, after, limit, keys, From(decisions.Keys, lo));
      EntriesOfParts(decisions, keys, []);
      assert keys + [] == keys;
      var hasMore := |entries| > n;
      entries := entries[..Min(n, |entries|)];
      return Ok(TrustPage(entries, if hasMore then Some(keys[n - 1]) else None));
    }
  }

  lemma ReplayStarts(c: Codec, bytes: seq<byte>)
    ensures CheckHeader(bytes).Some? ==> ReplayAll(c, bytes) == Err(CheckHeader(bytes).value)
    ensures CheckHeader(bytes).None? ==>
              |bytes| >= HEADER_LEN && ReplayAll(c, bytes) == ReplayFrom(c, bytes, HEADER_LEN, map[], 0)
  {
  }

  lemma ReplayNext(c: Codec, bytes: seq<byte>, offset: nat, ds: Decisions, n: nat)
    requires offset <= |bytes|
    ensures var found, r := Look(c, bytes, offset, ds, n), ReplayFrom(c, bytes, offset, ds, n);
            && (found.Torn? ==> r == Ok(Replayed(ds, offset, n))) && (found.Bad? ==> r == Err(found.error))
            && (found.Whole? ==> r == ReplayFrom(c, bytes, found.end, Apply(ds, found.m), n + 1))
  {
    hide Look;
  }

  /** A complete frame: its checksum, encoding, metadata and effect on the decisions so far. */
  method ReadRecord(c: Codec, bytes: seq<byte>, offset: nat, declared: nat, decisions: Decisions, recordCount: nat)
    returns (r: Result<Mutation, TrustError>)
    requires offset + LENGTH_PREFIX_LEN + declared + CHECKSUM_LEN <= |bytes| && recordCount < MAX_RECORDS
    requires U32Value(bytes[offset..offset + 4]) == declared <= MAX_RECORD_LEN
    ensures Look(c, bytes, offset, decisions, recordCount)
         == if r.Ok? then Whole(r.value, offset + LENGTH_PREFIX_LEN + declared + CHECKSUM_LEN) else Bad(r.error)
  {
    hide TransitionAllowed, ValidMutation, U32Value;
    var payloadEnd := offset + LENGTH_PREFIX_LEN + declared;
    var payload := bytes[offset + LENGTH_PREFIX_LEN..payloadEnd];
    if bytes[payloadEnd..payloadEnd + CHECKSUM_LEN] != c.hash(payload) {
      return Err(CorruptRecord(recordCount, offset, ChecksumMismatch));
    }
    var decoded := c.decode(payload);
    if decoded.None? {
      return Err(CorruptRecord(recordCount, offset, InvalidEncoding));
    }
    var (m, rest) := decoded.value;
    if rest != [] {
      return Err(CorruptRecord(recordCount, offset, TrailingBytes));
    }
    if !ValidMutation(m) {
      return Err(CorruptRecord(recordCount, offset, InvalidMetadata));
    }
    if !TransitionAllowed(decisions, m) {
      return Err(CorruptRecord(recordCount, offset, RevokedTrusted));
    }
    return Ok(m);
  }

  /** A frame that is cut short, too long, or one too many. */
  lemma LookAtLength(c: Codec, bytes: seq<byte>, offset: nat, ds: Decisions, n: nat)
    requires offset <= |bytes|
    ensures var found := Look(c, bytes, offset, ds, n);
            if |bytes| - offset < LENGTH_PREFIX_LEN then found == Torn else
            var declared := U32Value(bytes[offset..offset + 4]);
            if declared > MAX_RECORD_LEN then found == Bad(RecordTooLarge(n, declared))
            else if |bytes| - offset < LENGTH_PREFIX_LEN + declared + CHECKSUM_LEN then found == Torn
            else n >= MAX_RECORDS ==> found == Bad(TooManyRecords)
  {
  }

  /** Replaying a journal's bytes, record by record. */
  method Replay(c: Codec, bytes: seq<byte>) returns (r: Result<Replayed, TrustError>)
    ensures r == ReplayAll(c, bytes)
  {
    ReplayStarts(c, bytes);
    hide CheckHeader, ReplayAll, ReplayFrom, Look, Apply, U32Value;
    var bad := CheckHeader(bytes);
    if bad.Some? {
      return Err(bad.value);
    }
    var decisions: Decisions := map[];
    var offset, recordCount := HEADER_LEN, 0;
    while offset < |bytes|
      invariant HEADER_LEN <= offset <= |bytes|
      invariant ReplayFrom(c, bytes, offset, decisions, recordCount) == ReplayAll(c, bytes)
      decreases |bytes| - offset
    {
      ReplayNext(c, bytes, offset, decisions, recordCount);
      LookAtLength(c, bytes, offset, decisions, recordCount);
      if |bytes| - offset < LENGTH_PREFIX_LEN {
        break;
      }
      var declared := U32Value(bytes[offset..offset + 4]);
      if declared > MAX_RECORD_LEN {
        return Err(RecordTooLarge(recordCount, declared));
      }
      var recordLen := LENGTH_PREFIX_LEN + declared + CHECKSUM_LEN;
      if |bytes| - offset < recordLen {
        break;
      }
      if recordCount >= MAX_RECORDS {
        return Err(TooManyRecords);
      }
      var m := ReadRecord(c, bytes, offset, declared, decisions, recordCount);
      if m.Err? {
        return Err(m.error);
      }
      decisions, recordCount, offset := Apply(decisions, m.value), recordCount + 1, offset + recordLen;
    }
    ReplayNext(c, bytes, offset, decisions, recordCount);
    LookAtLength(c, bytes, offset, decisions, recordCount);
    return Ok(Replayed(decisions, offset, recordCount));
  }

  /** Opening an existing journal file, truncating an incomplete tail. */
  method OpenExisting(c: Codec, bytes: seq<byte>) returns (r: Result<TrustStore, TrustError>)
    ensures r.Err? ==> Reopen(c, bytes) == Err(r.error)
    ensures r.Ok? ==> fresh(r.value) && r.value.Valid() && Reopen(c, bytes) == Ok(r.value.View())
  {
    if |bytes| > MAX_STORE_SIZE {
      return Err(StoreTooLarge(|bytes|));
    }
    var replayed := Replay(c, bytes);
    if replayed.Err? {
      return Err(replayed.error);
    }
    var kept := bytes;
    if replayed.value.validLen != |bytes| {
      kept := bytes[..replayed.value.validLen];
    }
    assert kept == bytes[..replayed.value.validLen];
    var store := new TrustStore.FromParts(c,
      Store(kept, replayed.value.decisions, replayed.value.validLen, replayed.value.recordCount, map[], false));
    return Ok(store);
  }

  /** PAGING. Following the cursor with any positive limit over an unchanged store visits every
      decision exactly once, in identity order, and stops. */
  method Enumerate(store: TrustStore, limit: nat) returns (all: seq<TrustEntry>)
    requires limit > 0
    ensures all == EntriesOf(store.decisions, From(store.decisions.Keys, 0))
  {
    hide From, IsPage;
    all := [];
    var after: Option<DeviceId> := None;
    ghost var ds := store.decisions;
    ghost var keys, seen := From(ds.Keys, 0), 0;
    while true
      invariant seen <= |keys| && all == EntriesOf(ds, keys[..seen])
      invariant keys[seen..] == From(ds.Keys, Start(after))
      decreases |keys| - seen
    {
      var page := store.ListPage(after, limit);
      ghost var n := PageAdvances(ds, keys, seen, after, limit, page.value);
      all := all + page.value.entries;
      seen := seen + n;
      after := page.value.nextCursor;
      if after.None? {
        return;
      }
    }
  }

  /** One page moves the enumeration on by its own entries. */
  lemma PageAdvances(ds: Decisions, keys: seq<DeviceId>, seen: nat, after: Option<DeviceId>, limit: nat,
                     page: TrustPage) returns (n: nat)
    requires limit > 0 && IsPage(ds, after, limit, page)
    requires seen <= |keys| && keys[seen..] == From(ds.Keys, Start(after))
    ensures seen + n <= |keys|
    ensures EntriesOf(ds, keys[..seen]) + page.entries == EntriesOf(ds, keys[..seen + n])
    ensures page.nextCursor.None? ==> keys[..seen + n] == keys
    ensures page.nextCursor.Some? ==> n > 0 && keys[seen + n..] == From(ds.Keys, Start(page.nextCursor))
  {
    hide From;
    n := Min(Min(limit, MAX_LIST_PAGE_SIZE), |keys| - seen);
    assert keys[..seen] + keys[seen..][..n] == keys[..seen + n];
    if page.nextCursor.Some? {
      CursorCuts(ds.Keys, Start(after), n);
      assert keys[seen..][n..] == keys[seen + n..];
    } else {
      assert keys[..seen + n] == keys;
    }
  }

  /** What follows the first `n` keys of an enumeration is the enumeration from past the last. */
  lemma CursorCuts(keys: set<DeviceId>, lo: nat, n: nat)
    requires lo <= ID_LIMIT && 0 < n <= |From(keys, lo)|
    ensures From(keys, lo)[n..] == From(keys, Past(From(keys, lo)[n - 1]))
  {
    var all := From(keys, lo);
    var k := all[n - 1];
    InRangeIsEnumeration(keys, lo, ID_LIMIT);
    assert k in all;
    InRangeSplits(keys, lo, Past(k), ID_LIMIT);
    var before := InRange(keys, lo, Past(k));
    InRangeIsEnumeration(keys, lo, Past(k));
    assert before[|before| - 1] == k == all[|before| - 1];
  }
}
