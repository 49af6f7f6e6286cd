/** Startup validation of the durable transfer state: one directory per transfer holding a
    manifest and at most two markers, scanned in whatever order the listing gives. */
module TransferStores {
  import opened Common
  import opened Transfers
  import opened TransferRecords

  const MAX_DURABLE_TRANSFERS: nat := 4096
  const MAX_DURABLE_TRANSFERS_PER_PEER: nat := 64

  datatype StoreError =
    | BadRecord(error: RecordError)
    | RecordLimit | PeerRecordLimit | InvalidEntry | WrongRecordKind | MissingManifest | ManifestIdMismatch
    | InconsistentMarkers

  datatype StoredTransfer = StoredTransfer(manifest: Manifest, accepted: bool, terminal: Option<(Status, TerminalOrigin)>)

  /** A file of a transfer's directory. A name that is not text is no name at all. */
  datatype FileEntry = FileEntry(name: Option<string>, content: seq<byte>)

  /** A directory of the state directory; `id` is the transfer its name spells canonically, if any. */
  datatype DirEntry = DirEntry(id: Option<TransferId>, files: seq<FileEntry>)

  // ----- markers -----

  function RecordDigest(c: Codec, m: Manifest): Result<seq<byte>, RecordError> {
    match EncodeRecord(c, ManifestRecord(m))
    case Err(e) => Err(e)
    case Ok(bytes) => Ok(c.hash(bytes))
  }

  /** Why a record is not a marker of this manifest, if it is not. */
  function MarkerFault(c: Codec, record: Record, m: Manifest): Option<RecordError> {
    if record.ManifestRecord? then Some(NotMarker) else
    match RecordDigest(c, m)
    case Err(e) => Some(e)
    case Ok(digest) =>
      if record.binding != digest then Some(ManifestMismatch)
      else if record.AcceptedMarker? then if m.source.Received? then None else Some(InvalidRole)
      else if record.status in {Completed, Rejected} && m.source.Received? != record.origin.LocalSide? then Some(InvalidRole)
      else None
  }

  /** Completion of an incoming transfer needs its acceptance; rejection excludes it. */
  predicate Contradictory(m: Manifest, accepted: bool, status: Status) {
    m.source.Received? && ((status == Completed && !accepted) || (status == Rejected && accepted))
  }

  // ----- one directory -----

  datatype Found = Found(manifest: Option<Manifest>, accepted: Option<Record>, terminal: Option<Record>)

  function Place(found: Found, name: string, record: Record): Result<Found, StoreError> {
    if name == "manifest" && record.ManifestRecord? && found.manifest.None? then Ok(found.(manifest := Some(record.manifest)))
    else if name == "accepted" && record.AcceptedMarker? && found.accepted.None? then Ok(found.(accepted := Some(record)))
    else if name == "terminal" && record.TerminalMarker? && found.terminal.None? then Ok(found.(terminal := Some(record)))
    else Err(WrongRecordKind)
  }

  /** What the first `n` files of a listing come to. */
  function Gather(c: Codec, files: seq<FileEntry>, n: nat): Result<Found, StoreError>
    requires n <= |files|
  {
    if n == 0 then Ok(Found(None, None, None)) else
    var before := Gather(c, files, n - 1);
    if before.Err? then before else
    var file := files[n - 1];
    if n > 3 || file.name.None? || file.name.value !in {"manifest", "accepted", "terminal"} then Err(InvalidEntry) else
    match DecodeRecord(c, file.content)
    case Err(e) => Err(BadRecord(e))
    case Ok(record) => Place(before.value, file.name.value, record)
  }

  function Settle(c: Codec, found: Found, id: TransferId): Result<StoredTransfer, StoreError> {
    if found.manifest.None? then Err(MissingManifest) else
    var m := found.manifest.value;
    if m.id != id then Err(ManifestIdMismatch)
    else if found.accepted.Some? && MarkerFault(c, found.accepted.value, m).Some?
    then Err(BadRecord(MarkerFault(c, found.accepted.value, m).value))
    else if found.terminal.None? then Ok(StoredTransfer(m, found.accepted.Some?, None))
    else if MarkerFault(c, found.terminal.value, m).Some? then Err(BadRecord(MarkerFault(c, found.terminal.value, m).value))
    else if !found.terminal.value.TerminalMarker? then Err(WrongRecordKind)
    else if Contradictory(m, found.accepted.Some?, found.terminal.value.status) then Err(InconsistentMarkers)
    else Ok(StoredTransfer(m, found.accepted.Some?, Some((found.terminal.value.status, found.terminal.value.origin))))
  }

  function ScanOf(c: Codec, files: seq<FileEntry>, id: TransferId): Result<StoredTransfer, StoreError> {
    match Gather(c, files, |files|)
    case Err(e) => Err(e)
    case Ok(found) => Settle(c, found, id)
  }

  lemma {:induction false} GatherStops(c: Codec, files: seq<FileEntry>, i: nat, n: nat)
    requires i <= n <= |files| && Gather(c, files, i).Err?
    ensures Gather(c, files, n) == Gather(c, files, i)
    decreases n
  {
    if i < n {
      GatherStops(c, files, i, n - 1);
    }
  }

  method ScanRecord(c: Codec, files: seq<FileEntry>, id: TransferId) returns (r: Result<StoredTransfer, StoreError>)
    ensures r == ScanOf(c, files, id)
  {
    var manifest: Option<Manifest>, accepted: Option<Record>, terminal: Option<Record> := None, None, None;
    var i, count := 0, 0;
    while i < |files|
      invariant i <= |files| && count == i
      invariant Gather(c, files, i) == Ok(Found(manifest, accepted, terminal))
    {
      GatherStopsIfNow(c, files, i + 1);
      count := count + 1;
      if count > 3 {
        return Err(InvalidEntry);
      }
      var file := files[i];
      if file.name.None? || file.name.value !in {"manifest", "accepted", "terminal"} {
        return Err(InvalidEntry);
      }
      var name := file.name.value;
      var record := DecodeRecord(c, file.content);
      if record.Err? {
        return Err(BadRecord(record.error));
      }
      if name == "manifest" && record.value.ManifestRecord? && manifest.None? {
        manifest := Some(record.value.manifest);
      } else if name == "accepted" && record.value.AcceptedMarker? && accepted.None? {
        accepted := Some(record.value);
      } else if name == "terminal" && record.value.TerminalMarker? && terminal.None? {
        terminal := Some(record.value);
      } else {
        return Err(WrongRecordKind);
      }
      i := i + 1;
    }
    if manifest.None? {
      return Err(MissingManifest);
    }
    var m := manifest.value;
    if m.id != id {
      return Err(ManifestIdMismatch);
    }
    if accepted.Some? {
      var fault := MarkerFault(c, accepted.value, m);
      if fault.Some? {
        return Err(BadRecord(fault.value));
      }
    }
    var outcome: Option<(Status, TerminalOrigin)> := None;
    if terminal.Some? {
      var fault := MarkerFault(c, terminal.value, m);
      if fault.Some? {
        return Err(BadRecord(fault.value));
      }
      if !terminal.value.TerminalMarker? {
        return Err(WrongRecordKind);
      }
      if Contradictory(m, accepted.Some?, terminal.value.status) {
        return Err(InconsistentMarkers);
      }
      outcome := Some((terminal.value.status, terminal.value.origin));
    }
    return Ok(StoredTransfer(m, accepted.Some?, outcome));
  }

  lemma GatherStopsIfNow(c: Codec, files: seq<FileEntry>, n: nat)
    requires n <= |files|
    ensures Gather(c, files, n).Err? ==> Gather(c, files, |files|) == Gather(c, files, n)
  {
    if Gather(c, files, n).Err? {
      GatherStops(c, files, n, |files|);
    }
  }

  // ----- what a scanned directory must hold -----

  /** The file reads as a record of the kind its name calls for. */
  predicate Fits(c: Codec, file: FileEntry) {
    && file.name.Some? && DecodeRecord(c, file.content).Ok?
    && var record := DecodeRecord(c, file.content).value;
       match file.name.value
       case "manifest" => record.ManifestRecord?
       case "accepted" => record.AcceptedMarker?
       case "terminal" => record.TerminalMarker?
       case _ => false
  }

  /** Some file of a given name and record is listed. */
  ghost predicate Lists(c: Codec, files: seq<FileEntry>, name: string, record: Record) {
    exists file :: file in files && file.name == Some(name) && DecodeRecord(c, file.content) == Ok(record)
  }

  /** Every file fits its name and no name is listed twice. */
  ghost predicate Orderly(c: Codec, files: seq<FileEntry>, n: nat)
    requires n <= |files|
  {
    && n <= 3
    && (forall i | 0 <= i < n :: Fits(c, files[i]))
    && (forall i, j | 0 <= i < j < n :: files[i].name != files[j].name)
  }

  /** The record found under a name. */
  function At(found: Found, name: string): Option<Record> {
    match name
    case "manifest" => if found.manifest.Some? then Some(ManifestRecord(found.manifest.value)) else None
    case "accepted" => found.accepted
    case "terminal" => found.terminal
    case _ => None
  }

  /** `found` is exactly what the first `n` files hold. */
  ghost predicate Collected(c: Codec, files: seq<FileEntry>, n: nat, found: Found)
    requires n <= |files| && Orderly(c, files, n)
  {
    && (forall i | 0 <= i < n :: At(found, files[i].name.value) == Some(DecodeRecord(c, files[i].content).value))
    && (forall name | At(found, name).Some? :: exists i | 0 <= i < n :: files[i].name == Some(name))
  }

  lemma CollectOne(c: Codec, files: seq<FileEntry>, n: nat, before: Found, after: Found)
    requires n < |files| && n < 3 && Orderly(c, files, n) && Collected(c, files, n, before)
    requires files[n].name.Some? && DecodeRecord(c, files[n].content).Ok?
    requires Place(before, files[n].name.value, DecodeRecord(c, files[n].content).value) == Ok(after)
    ensures Orderly(c, files, n + 1) && Collected(c, files, n + 1, after)
  {
    hide DecodeRecord, Place, At;
    PlaceMeans(before, files[n].name.value, DecodeRecord(c, files[n].content).value);
  }

  lemma {:induction false} GatherMeans(c: Codec, files: seq<FileEntry>, n: nat)
    requires n <= |files| && Gather(c, files, n).Ok?
    ensures Orderly(c, files, n) && Collected(c, files, n, Gather(c, files, n).value)
    decreases n
  {
    if n > 0 {
      hide DecodeRecord, Place, Collected, Orderly;
      GatherMeans(c, files, n - 1);
      CollectOne(c, files, n - 1, Gather(c, files, n - 1).value, Gather(c, files, n).value);
    }
  }

  lemma PlaceMeans(found: Found, name: string, record: Record)
    ensures Place(found, name, record).Ok? ==>
      && At(found, name).None? && At(Place(found, name, record).value, name) == Some(record)
      && (forall other | other != name :: At(Place(found, name, record).value, other) == At(found, other))
      && (match name
          case "manifest" => record.ManifestRecord?
          case "accepted" => record.AcceptedMarker?
          case "terminal" => record.TerminalMarker?
          case _ => false)
  {
  }

  lemma {:induction false} GatherSucceeds(c: Codec, files: seq<FileEntry>, n: nat)
    requires n <= |files| && Orderly(c, files, n)
    ensures Gather(c, files, n).Ok?
    decreases n
  {
    hide DecodeRecord;
    if n > 0 {
      GatherSucceeds(c, files, n - 1);
      GatherMeans(c, files, n - 1);
      assert Fits(c, files[n - 1]);
    }
  }

  /** A directory is accepted, and as `s`, exactly when its files are at most three, each of the
      kind its name calls for and no name twice, with a manifest of this transfer whose markers
      are bound to it, attributed to the right side, and do not contradict each other. */
  ghost predicate WellKept(c: Codec, files: seq<FileEntry>, id: TransferId, s: StoredTransfer) {
    && Orderly(c, files, |files|)
    && Lists(c, files, "manifest", ManifestRecord(s.manifest)) && s.manifest.id == id
    && (s.accepted <==> exists record :: Lists(c, files, "accepted", record))
    && (forall record | Lists(c, files, "accepted", record) :: MarkerFault(c, record, s.manifest).None?)
    && (s.terminal.Some? <==> exists record :: Lists(c, files, "terminal", record))
    && (forall record | Lists(c, files, "terminal", record) ::
          && MarkerFault(c, record, s.manifest).None? && record.TerminalMarker?
          && s.terminal == Some((record.status, record.origin)) && !Contradictory(s.manifest, s.accepted, record.status))
  }

  lemma FoundIsListed(c: Codec, files: seq<FileEntry>, found: Found, name: string, record: Record)
    requires Orderly(c, files, |files|) && Collected(c, files, |files|, found)
    ensures At(found, name) == Some(record) <==> Lists(c, files, name, record)
  {
  }

  /** What was gathered settles as `s` exactly when the records found under the three names agree. */
  predicate Agreed(c: Codec, found: Found, id: TransferId, s: StoredTransfer) {
    && At(found, "manifest") == Some(ManifestRecord(s.manifest)) && s.manifest.id == id
    && s.accepted == At(found, "accepted").Some? && s.terminal.Some? == At(found, "terminal").Some?
    && (s.accepted ==> MarkerFault(c, At(found, "accepted").value, s.manifest).None?)
    && (s.terminal.Some? ==>
          var record := At(found, "terminal").value;
          && MarkerFault(c, record, s.manifest).None? && record.TerminalMarker?
          && s.terminal == Some((record.status, record.origin)) && !Contradictory(s.manifest, s.accepted, record.status))
  }

  lemma SettleIsAgreed(c: Codec, found: Found, id: TransferId, s: StoredTransfer)
    ensures Settle(c, found, id) == Ok(s) <==> Agreed(c, found, id, s)
  {
  }

  lemma AgreedIsKept(c: Codec, files: seq<FileEntry>, found: Found, id: TransferId, s: StoredTransfer)
    requires Orderly(c, files, |files|) && Collected(c, files, |files|, found)
    ensures Agreed(c, found, id, s) <==> WellKept(c, files, id, s)
  {
    hide Orderly, Collected, MarkerFault, Lists, At, Contradictory;
    forall name, record ensures At(found, name) == Some(record) <==> Lists(c, files, name, record) {
      FoundIsListed(c, files, found, name, record);
    }
    assert At(found, "accepted").Some? ==> Lists(c, files, "accepted", At(found, "accepted").value);
    assert At(found, "terminal").Some? ==> Lists(c, files, "terminal", At(found, "terminal").value);
  }

  lemma ScanIsExact(c: Codec, files: seq<FileEntry>, id: TransferId, s: StoredTransfer)
    ensures ScanOf(c, files, id) == Ok(s) <==> WellKept(c, files, id, s)
  {
    hide Gather, Settle, Agreed, Collected, Orderly, Lists, MarkerFault, Contradictory;
    if Orderly(c, files, |files|) {
      GatherSucceeds(c, files, |files|);
    }
    if Gather(c, files, |files|).Ok? {
      GatherMeans(c, files, |files|);
      SettleIsAgreed(c, Gather(c, files, |files|).value, id, s);
      AgreedIsKept(c, files, Gather(c, files, |files|).value, id, s);
    }
  }

  // ----- why a directory is refused -----

  /** What is wrong with the first file that is out of order. */
  function FileFault(c: Codec, files: seq<FileEntry>, i: nat): StoreError
    requires i < |files|
  {
    if i >= 3 || files[i].name !in {Some("manifest"), Some("accepted"), Some("terminal")} then InvalidEntry
    else if DecodeRecord(c, files[i].content).Err? then BadRecord(DecodeRecord(c, files[i].content).error)
    else WrongRecordKind
  }

  /** The first file out of order decides how the scan fails, whatever follows it. */
  lemma FirstBadFile(c: Codec, files: seq<FileEntry>, i: nat, id: TransferId)
    requires i < |files| && Orderly(c, files, i) && !Orderly(c, files, i + 1)
    ensures ScanOf(c, files, id) == Err(FileFault(c, files, i))
  {
    hide DecodeRecord, Orderly;
    GatherSucceeds(c, files, i);
    if Gather(c, files, i + 1).Ok? {
      GatherMeans(c, files, i + 1);
    }
    GatherStopsIfNow(c, files, i + 1);
  }

  /** Files in order are refused for want of a manifest, for another transfer's, for a marker that
      does not fit it, the acceptance first, or for markers that contradict each other. */
  lemma WhyRefused(c: Codec, files: seq<FileEntry>, id: TransferId, e: StoreError)
    requires Orderly(c, files, |files|)
    ensures ScanOf(c, files, id) == Err(e) ==>
              if !(exists m :: Lists(c, files, "manifest", ManifestRecord(m))) then e == MissingManifest else
              exists m :: Lists(c, files, "manifest", ManifestRecord(m)) && Misfit(c, files, id, m, e)
  {
    hide Gather, Settle, Collected, Orderly, Lists, MarkerFault, Contradictory;
    GatherSucceeds(c, files, |files|);
    GatherMeans(c, files, |files|);
    var found := Gather(c, files, |files|).value;
    forall name, record ensures At(found, name) == Some(record) <==> Lists(c, files, name, record) {
      FoundIsListed(c, files, found, name, record);
    }
    if Settle(c, found, id) == Err(e) {
      MisfitIsFound(c, files, found, id, e);
    }
  }

  /** How the markers fail the manifest found. */
  ghost predicate Misfit(c: Codec, files: seq<FileEntry>, id: TransferId, m: Manifest, e: StoreError) {
    if m.id != id then e == ManifestIdMismatch else
    if exists r :: Lists(c, files, "accepted", r) && MarkerFault(c, r, m).Some?
    then exists r :: Lists(c, files, "accepted", r) && MarkerFault(c, r, m).Some? && e == BadRecord(MarkerFault(c, r, m).value)
    else exists r :: Lists(c, files, "terminal", r) &&
                     if MarkerFault(c, r, m).Some? then e == BadRecord(MarkerFault(c, r, m).value) else
                     && r.TerminalMarker? && e == InconsistentMarkers
                     && Contradictory(m, exists a :: Lists(c, files, "accepted", a), r.status)
  }

  lemma MisfitIsFound(c: Codec, files: seq<FileEntry>, found: Found, id: TransferId, e: StoreError)
    requires Orderly(c, files, |files|) && Collected(c, files, |files|, found) && Settle(c, found, id) == Err(e)
    requires forall name, record :: At(found, name) == Some(record) <==> Lists(c, files, name, record)
    ensures found.manifest.None? ==> e == MissingManifest && !(exists m :: Lists(c, files, "manifest", ManifestRecord(m)))
    ensures found.manifest.Some? ==>
              && Lists(c, files, "manifest", ManifestRecord(found.manifest.value))
              && Misfit(c, files, id, found.manifest.value, e)
  {
    hide Orderly, Lists, MarkerFault, Contradictory;
    assert forall r :: Lists(c, files, "accepted", r) <==> found.accepted == Some(r);
    assert forall r :: Lists(c, files, "terminal", r) <==> found.terminal == Some(r);
    assert forall m :: Lists(c, files, "manifest", ManifestRecord(m)) <==> found.manifest == Some(m);
    TerminalIsTerminal(c, files, found);
  }

  lemma TerminalIsTerminal(c: Codec, files: seq<FileEntry>, found: Found)
    requires Orderly(c, files, |files|) && Collected(c, files, |files|, found)
    ensures found.terminal.Some? ==> found.terminal.value.TerminalMarker?
  {
    hide DecodeRecord;
    if found.terminal.Some? {
      assert At(found, "terminal").Some?;
      var i :| 0 <= i < |files| && files[i].name == Some("terminal");
      assert Fits(c, files[i]);
    }
  }

  // ----- the markers a run leaves -----

  /** The markers on disk: each written when its transition first succeeds, never rewritten. */
  datatype Markers = Markers(accepted: bool, terminal: Option<(Status, TerminalOrigin)>)

  function Mark(t: Transfer, op: Op, k: Markers): Markers {
    if Apply(t, op).Err? then k
    else if op.PersistAcceptance? then k.(accepted := true)
    else if op.PersistTerminal? && k.terminal.None? then k.(terminal := Some((op.status, LocalSide)))
    else if op.PersistPeerTerminal? && k.terminal.None? then k.(terminal := Some((op.status, PeerSide)))
    else k
  }

  ghost function MarkersOf(t: Transfer, ops: seq<Op>): Markers {
    if ops == [] then Markers(false, None)
    else Mark(Run(t, ops[..|ops| - 1]), ops[|ops| - 1], MarkersOf(t, ops[..|ops| - 1]))
  }

  /** How the markers stand to the state they record. */
  predicate Marked(t: Transfer, k: Markers) {
    && (k.terminal.Some? <==> t.Outcome().Some?) && (k.terminal.Some? ==> k.terminal.value.0 == t.Outcome().value)
    && (k.accepted ==> t.direction == Incoming && !t.state.PendingOffer?)
    && (t.direction == Incoming && PastAcceptance(t) ==> k.accepted)
    && (k.terminal.Some? && k.terminal.value.0 in {Completed, Rejected} ==>
          && k.terminal.value.1 == (if t.direction == Incoming then LocalSide else PeerSide)
          && (t.direction == Incoming ==> (k.accepted <==> k.terminal.value.0 == Completed)))
  }

  lemma MarkKeeps(t: Transfer, op: Op, k: Markers)
    requires WellFormed(t) && Marked(t, k)
    ensures Marked(Step(t, op), Mark(t, op, k))
  {
  }

  lemma {:induction false} EveryRunIsMarked(t: Transfer, ops: seq<Op>)
    requires Fresh(t)
    ensures Marked(Run(t, ops), MarkersOf(t, ops)) && WellFormed(Run(t, ops)) && SameFile(t, Run(t, ops))
    decreases |ops|
  {
    if ops != [] {
      hide Marked, WellFormed, Mark;
      EveryRunIsMarked(t, ops[..|ops| - 1]);
      MarkKeeps(Run(t, ops[..|ops| - 1]), ops[|ops| - 1], MarkersOf(t, ops[..|ops| - 1]));
      StepWellFormed(Run(t, ops[..|ops| - 1]), ops[|ops| - 1]);
    }
  }

  function ManifestOf(t: Transfer, path: string): Manifest {
    Manifest(t.id, t.peer, t.metadata, if t.direction == Outgoing then SentFrom(path) else Received)
  }

  /** The files of a transfer's directory: its manifest and the markers written so far. */
  predicate IsFile(c: Codec, m: Manifest, k: Markers, file: FileEntry) {
    RecordDigest(c, m).Ok? &&
    var digest := RecordDigest(c, m).value;
    match file.name
    case Some("manifest") => EncodeRecord(c, ManifestRecord(m)) == Ok(file.content)
    case Some("accepted") => k.accepted && EncodeRecord(c, AcceptedMarker(digest)) == Ok(file.content)
    case Some("terminal") =>
      k.terminal.Some? && EncodeRecord(c, TerminalMarker(digest, k.terminal.value.0, k.terminal.value.1)) == Ok(file.content)
    case _ => false
  }

  /** A listing names every file of the directory once, in any order, and nothing else. */
  ghost predicate IsListing(c: Codec, m: Manifest, k: Markers, files: seq<FileEntry>) {
    && (forall i, j | 0 <= i < j < |files| :: files[i] != files[j])
    && (forall file :: file in files <==> IsFile(c, m, k, file))
  }

  /** The record each file of the directory holds. */
  function Held(c: Codec, m: Manifest, k: Markers, name: string): Option<Record> {
    if RecordDigest(c, m).Err? then None else
    var digest := RecordDigest(c, m).value;
    match name
    case "manifest" => Some(ManifestRecord(m))
    case "accepted" => if k.accepted then Some(AcceptedMarker(digest)) else None
    case "terminal" =>
      if k.terminal.Some? then Some(TerminalMarker(digest, k.terminal.value.0, k.terminal.value.1)) else None
    case _ => None
  }

  lemma FileReads(c: Codec, m: Manifest, k: Markers, file: FileEntry)
    requires c.Sound() && IsFile(c, m, k, file)
    ensures Held(c, m, k, file.name.value).Some? && Fits(c, file)
    ensures DecodeRecord(c, file.content) == Ok(Held(c, m, k, file.name.value).value)
    ensures EncodeRecord(c, Held(c, m, k, file.name.value).value) == Ok(file.content)
  {
    hide DecodeRecord, EncodeRecord;
    RecordRoundTrip(c, Held(c, m, k, file.name.value).value);
  }

  lemma MarkersEncode(c: Codec, m: Manifest, k: Markers, name: string)
    requires c.Sound() && EncodeRecord(c, ManifestRecord(m)).Ok?
    ensures RecordDigest(c, m).Ok? && |RecordDigest(c, m).value| == CHECKSUM_LEN
    ensures Held(c, m, k, name).Some? ==>
              && EncodeRecord(c, Held(c, m, k, name).value).Ok?
              && IsFile(c, m, k, FileEntry(Some(name), EncodeRecord(c, Held(c, m, k, name).value).value))
  {
  }

  /** The listing is orderly, and lists exactly the records the directory holds. */
  lemma ListingLists(c: Codec, m: Manifest, k: Markers, files: seq<FileEntry>, name: string, record: Record)
    requires c.Sound() && EncodeRecord(c, ManifestRecord(m)).Ok? && IsListing(c, m, k, files)
    ensures Lists(c, files, name, record) <==> Held(c, m, k, name) == Some(record)
  {
    hide DecodeRecord, EncodeRecord, Held, Fits, IsFile;
    MarkersEncode(c, m, k, name);
    if Held(c, m, k, name) == Some(record) {
      var file := FileEntry(Some(name), EncodeRecord(c, record).value);
      assert file in files;
      FileReads(c, m, k, file);
    }
    if Lists(c, files, name, record) {
      var file :| file in files && file.name == Some(name) && DecodeRecord(c, file.content) == Ok(record);
      FileReads(c, m, k, file);
    }
  }

  lemma ListingIsOrderly(c: Codec, m: Manifest, k: Markers, files: seq<FileEntry>)
    requires c.Sound() && IsListing(c, m, k, files)
    ensures Orderly(c, files, |files|)
  {
    forall i | 0 <= i < |files| ensures Fits(c, files[i]) && files[i].name in {Some("manifest"), Some("accepted"), Some("terminal")} {
      assert files[i] in files;
      FileReads(c, m, k, files[i]);
    }
    forall i, j | 0 <= i < j < |files| ensures files[i].name != files[j].name {
      assert files[i] in files && files[j] in files;
      FileReads(c, m, k, files[i]);
      FileReads(c, m, k, files[j]);
    }
    hide Fits, DecodeRecord, EncodeRecord, IsFile;
    DistinctFit(seq(|files|, i requires 0 <= i < |files| => files[i].name), {Some("manifest"), Some("accepted"), Some("terminal")});
  }

  lemma MarkersAreValid(c: Codec, t: Transfer, path: string, k: Markers, name: string)
    requires RecordDigest(c, ManifestOf(t, path)).Ok? && Marked(t, k) && name in {"accepted", "terminal"}
    ensures var held := Held(c, ManifestOf(t, path), k, name);
            && (held.Some? ==> MarkerFault(c, held.value, ManifestOf(t, path)).None?)
            && (k.terminal.Some? ==> !Contradictory(ManifestOf(t, path), k.accepted, k.terminal.value.0))
  {
  }

  /** Whatever a run of the transfer did, and wherever it stopped, what it left on disk passes the
      scan, in every listing order, and says exactly what the run decided. */
  lemma EveryRunIsRecoverable(c: Codec, t: Transfer, ops: seq<Op>, path: string, files: seq<FileEntry>)
    requires c.Sound() && Fresh(t) && EncodeRecord(c, ManifestRecord(ManifestOf(t, path))).Ok?
    requires IsListing(c, ManifestOf(t, path), MarkersOf(t, ops), files)
    ensures var k := MarkersOf(t, ops);
            && ScanOf(c, files, t.id) == Ok(StoredTransfer(ManifestOf(t, path), k.accepted, k.terminal))
            && (Run(t, ops).Outcome() == if k.terminal.Some? then Some(k.terminal.value.0) else None)
  {
    var m, k, u := ManifestOf(t, path), MarkersOf(t, ops), Run(t, ops);
    EveryRunIsMarked(t, ops);
    assert ManifestOf(u, path) == m;
    hide MarkersOf, Run, EncodeRecord, Orderly, IsListing, Lists, MarkerFault, Contradictory, ScanOf;
    MarkersEncode(c, m, k, "manifest");
    MarkersAreValid(c, u, path, k, "accepted");
    MarkersAreValid(c, u, path, k, "terminal");
    ListingIsOrderly(c, m, k, files);
    forall name, record ensures Lists(c, files, name, record) <==> Held(c, m, k, name) == Some(record) {
      ListingLists(c, m, k, files, name, record);
    }
    HeldIsKept(c, m, k, files);
    ScanIsExact(c, files, t.id, StoredTransfer(m, k.accepted, k.terminal));
  }

  lemma HeldIsKept(c: Codec, m: Manifest, k: Markers, files: seq<FileEntry>)
    requires Orderly(c, files, |files|) && RecordDigest(c, m).Ok?
    requires forall name, record :: Lists(c, files, name, record) <==> Held(c, m, k, name) == Some(record)
    requires forall name | name in {"accepted", "terminal"} && Held(c, m, k, name).Some? ::
               MarkerFault(c, Held(c, m, k, name).value, m).None?
    requires k.terminal.Some? ==> !Contradictory(m, k.accepted, k.terminal.value.0)
    ensures WellKept(c, files, m.id, StoredTransfer(m, k.accepted, k.terminal))
  {
    hide Orderly, Lists, MarkerFault, Contradictory, RecordDigest;
    assert k.accepted ==> Lists(c, files, "accepted", Held(c, m, k, "accepted").value);
    assert k.terminal.Some? ==> Lists(c, files, "terminal", Held(c, m, k, "terminal").value);
  }

  // ----- what the scan accepts is what runs leave -----

  /** One more operation of a run. */
  lemma MarkOne(t: Transfer, ops: seq<Op>, op: Op)
    ensures Run(t, ops + [op]) == Step(Run(t, ops), op)
    ensures MarkersOf(t, ops + [op]) == Mark(Run(t, ops), op, MarkersOf(t, ops))
  {
    assert (ops + [op])[..|ops|] == ops;
  }

  /** The markers a transfer of this direction may bear. */
  predicate Possible(direction: Direction, k: Markers) {
    && (k.accepted ==> direction == Incoming)
    && (k.terminal.Some? && k.terminal.value.0 in {Completed, Rejected} ==>
          && k.terminal.value.1 == (if direction == Incoming then LocalSide else PeerSide)
          && (direction == Incoming ==> (k.accepted <==> k.terminal.value.0 == Completed)))
  }

  /** An accepted transfer, or one never accepted. */
  lemma AcceptedOrNot(t: Transfer, accepted: bool) returns (ops: seq<Op>)
    requires Fresh(t) && (accepted ==> t.direction == Incoming)
    ensures MarkersOf(t, ops) == Markers(accepted, None)
    ensures Run(t, ops) == if accepted then t.(state := Accepted(0)) else t
  {
    ops := [];
    if accepted {
      MarkOne(t, [], PersistAcceptance(0));
      ops := [] + [PersistAcceptance(0)];
    }
  }

  /** An accepted transfer received from its beginning, verified and published. */
  lemma ReceivedWhole(t: Transfer, ops: seq<Op>) returns (all: seq<Op>)
    requires t.direction == Incoming && Run(t, ops) == t.(state := Accepted(0), nextAttempt := 0)
    requires t.metadata.byteLen <= MAX_TRANSFER_BYTES && MarkersOf(t, ops) == Markers(true, None)
    ensures MarkersOf(t, all) == Markers(true, Some((Completed, LocalSide)))
  {
    hide Run, MarkersOf;
    var begin, verify, publish := BeginReceive(BlobV1(t.id, 0, t.metadata.byteLen)), VerifyPayload(1), PersistTerminal(Completed, Some(1));
    MarkOne(t, ops, begin);
    MarkOne(t, ops + [begin], verify);
    MarkOne(t, ops + [begin] + [verify], publish);
    all := ops + [begin] + [verify] + [publish];
  }

  lemma MarkersAreReachable(t: Transfer, k: Markers) returns (ops: seq<Op>)
    requires Fresh(t) && t.metadata.byteLen <= MAX_TRANSFER_BYTES && Possible(t.direction, k)
    ensures MarkersOf(t, ops) == k
  {
    hide Run, MarkersOf;
    ops := AcceptedOrNot(t, k.accepted);
    if k.terminal.Some? {
      var (status, side) := k.terminal.value;
      if status == Completed && t.direction == Incoming {
        ops := ReceivedWhole(t, ops);
      } else {
        var op := if side == LocalSide then PersistTerminal(status, None) else PersistPeerTerminal(status);
        MarkOne(t, ops, op);
        ops := ops + [op];
      }
    }
  }

  lemma FaultlessIsPossible(c: Codec, t: Transfer, k: Markers, path: string)
    requires RecordDigest(c, ManifestOf(t, path)).Ok?
    requires forall name | name in {"accepted", "terminal"} && Held(c, ManifestOf(t, path), k, name).Some? ::
               MarkerFault(c, Held(c, ManifestOf(t, path), k, name).value, ManifestOf(t, path)).None?
    requires k.terminal.Some? ==> !Contradictory(ManifestOf(t, path), k.accepted, k.terminal.value.0)
    ensures Possible(t.direction, k)
  {
    assert k.accepted ==> Held(c, ManifestOf(t, path), k, "accepted").Some?;
    assert k.terminal.Some? ==> Held(c, ManifestOf(t, path), k, "terminal").Some?;
    hide RecordDigest;
  }

  /** The records a well kept directory lists have no fault, and its summary is that of its markers. */
  lemma KeptIsHeld(c: Codec, m: Manifest, k: Markers, files: seq<FileEntry>, id: TransferId, s: StoredTransfer)
    requires WellKept(c, files, id, s) && RecordDigest(c, m).Ok?
    requires forall name, record :: Lists(c, files, name, record) <==> Held(c, m, k, name) == Some(record)
    ensures s == StoredTransfer(m, k.accepted, k.terminal)
    ensures forall name | name in {"accepted", "terminal"} && Held(c, m, k, name).Some? ::
              MarkerFault(c, Held(c, m, k, name).value, m).None?
    ensures k.terminal.Some? ==> !Contradictory(m, k.accepted, k.terminal.value.0)
  {
    hide Orderly, Lists, MarkerFault, Contradictory, RecordDigest;
    assert Held(c, m, k, "manifest") == Some(ManifestRecord(s.manifest));
    assert k.accepted ==> Lists(c, files, "accepted", Held(c, m, k, "accepted").value);
    assert k.terminal.Some? ==> Lists(c, files, "terminal", Held(c, m, k, "terminal").value);
  }

  /** A listing that was scanned bears possible markers. */
  lemma ScannedIsPossible(c: Codec, t: Transfer, k: Markers, path: string, files: seq<FileEntry>)
    requires c.Sound() && EncodeRecord(c, ManifestRecord(ManifestOf(t, path))).Ok?
    requires IsListing(c, ManifestOf(t, path), k, files) && ScanOf(c, files, t.id).Ok?
    ensures Possible(t.direction, k)
  {
    hide EncodeRecord, Orderly, IsListing, Lists, ScanOf, WellKept, MarkerFault, Contradictory, Held, ManifestOf, RecordDigest;
    var m, s := ManifestOf(t, path), ScanOf(c, files, t.id).value;
    ScanIsExact(c, files, t.id, s);
    MarkersEncode(c, m, k, "manifest");
    forall name, record ensures Lists(c, files, name, record) <==> Held(c, m, k, name) == Some(record) {
      ListingLists(c, m, k, files, name, record);
    }
    KeptIsHeld(c, m, k, files, t.id, s);
    FaultlessIsPossible(c, t, k, path);
  }

  /** A transfer's directory passes the scan if and only if some run of the transfer leaves just
      these markers: nothing a run cannot do is accepted, and nothing it can do is refused. */
  lemma ScanAcceptsRuns(c: Codec, t: Transfer, k: Markers, path: string, files: seq<FileEntry>)
    requires c.Sound() && Fresh(t) && EncodeRecord(c, ManifestRecord(ManifestOf(t, path))).Ok?
    requires t.metadata.byteLen <= MAX_TRANSFER_BYTES && IsListing(c, ManifestOf(t, path), k, files)
    ensures ScanOf(c, files, t.id).Ok? <==> exists ops :: MarkersOf(t, ops) == k
  {
    hide IsListing, ScanOf, EncodeRecord, MarkersOf, Run, Possible;
    if ScanOf(c, files, t.id).Ok? {
      ScannedIsPossible(c, t, k, path, files);
      var ops := MarkersAreReachable(t, k);
    }
    if ops :| MarkersOf(t, ops) == k {
      EveryRunIsRecoverable(c, t, ops, path, files);
    }
  }

  // ----- the whole state directory -----

  function Scanned(c: Codec, dir: DirEntry): Option<StoredTransfer> {
    if dir.id.None? then None else
    match ScanOf(c, dir.files, dir.id.value)
    case Ok(s) => Some(s)
    case Err(_) => None
  }

  /** How many of the first `n` directories belong to a peer. */
  ghost function PeerCount(c: Codec, dirs: seq<DirEntry>, n: nat, peer: DeviceId): nat
    requires n <= |dirs|
  {
    if n == 0 then 0 else
    var last := Scanned(c, dirs[n - 1]);
    PeerCount(c, dirs, n - 1, peer) + if last.Some? && last.value.manifest.peer == peer then 1 else 0
  }

  /** The first `n` directories are within every bound, each well kept and none repeated. */
  ghost predicate Sane(c: Codec, dirs: seq<DirEntry>, n: nat)
    requires n <= |dirs|
  {
    && n <= MAX_DURABLE_TRANSFERS
    && (forall i | 0 <= i < n :: Scanned(c, dirs[i]).Some?)
    && (forall i, j | 0 <= i < j < n :: dirs[i].id != dirs[j].id)
    && (forall peer :: PeerCount(c, dirs, n, peer) <= MAX_DURABLE_TRANSFERS_PER_PEER)
  }

  lemma {:induction false} CountGrows(c: Codec, dirs: seq<DirEntry>, m: nat, n: nat, peer: DeviceId)
    requires m <= n <= |dirs|
    ensures PeerCount(c, dirs, m, peer) <= PeerCount(c, dirs, n, peer)
    decreases n
  {
    if m < n {
      CountGrows(c, dirs, m, n - 1, peer);
    }
  }

  lemma SaneSoFar(c: Codec, dirs: seq<DirEntry>, n: nat)
    requires n <= |dirs| && Sane(c, dirs, |dirs|)
    ensures Sane(c, dirs, n)
  {
    hide Scanned;
    forall peer ensures PeerCount(c, dirs, n, peer) <= MAX_DURABLE_TRANSFERS_PER_PEER {
      CountGrows(c, dirs, n, |dirs|, peer);
    }
  }

  /** The snapshot of the first `n` directories. */
  ghost predicate Snapshot(c: Codec, dirs: seq<DirEntry>, n: nat, records: map<TransferId, StoredTransfer>)
    requires n <= |dirs|
  {
    && |records| == n
    && (forall i | 0 <= i < n :: dirs[i].id.Some? && dirs[i].id.value in records)
    && (forall i | 0 <= i < n :: Some(records[dirs[i].id.value]) == Scanned(c, dirs[i]))
    && (forall id | id in records :: exists i | 0 <= i < n :: dirs[i].id == Some(id))
  }

  ghost predicate Counted(c: Codec, dirs: seq<DirEntry>, n: nat, counts: map<DeviceId, nat>)
    requires n <= |dirs|
  {
    forall peer :: PeerCount(c, dirs, n, peer) == if peer in counts then counts[peer] else 0
  }

  lemma SnapshotGrows(c: Codec, dirs: seq<DirEntry>, n: nat, records: map<TransferId, StoredTransfer>, record: StoredTransfer)
    requires n < |dirs| && Snapshot(c, dirs, n, records) && Scanned(c, dirs[n]) == Some(record) && dirs[n].id.value !in records
    ensures Snapshot(c, dirs, n + 1, records[dirs[n].id.value := record])
    ensures !Repeats(dirs, n)
  {
    hide ScanOf;
    var after := records[dirs[n].id.value := record];
    forall id | id in after ensures exists i | 0 <= i < n + 1 :: dirs[i].id == Some(id) {
      if id == dirs[n].id.value {
        assert dirs[n].id == Some(id);
      }
    }
  }

  lemma CountedGrows(c: Codec, dirs: seq<DirEntry>, n: nat, counts: map<DeviceId, nat>, record: StoredTransfer)
    requires n < |dirs| && Counted(c, dirs, n, counts) && Scanned(c, dirs[n]) == Some(record)
    ensures var peer := record.manifest.peer;
            && PeerCount(c, dirs, n + 1, peer) == PeerCount(c, dirs, n, peer) + 1
            && Counted(c, dirs, n + 1, counts[peer := if peer in counts then counts[peer] + 1 else 1])
  {
  }

  predicate Repeats(dirs: seq<DirEntry>, n: nat)
    requires n < |dirs|
  {
    exists i | 0 <= i < n :: dirs[i].id == dirs[n].id
  }

  /** What one more directory must satisfy. */
  lemma SaneNext(c: Codec, dirs: seq<DirEntry>, n: nat)
    requires n < |dirs| && Sane(c, dirs, n)
    ensures Sane(c, dirs, n + 1) <==>
      && n < MAX_DURABLE_TRANSFERS && Scanned(c, dirs[n]).Some? && !Repeats(dirs, n)
      && PeerCount(c, dirs, n + 1, Scanned(c, dirs[n]).value.manifest.peer) <= MAX_DURABLE_TRANSFERS_PER_PEER
  {
    hide Scanned;
    var m, last := n + 1, Scanned(c, dirs[n]);
    if last.Some? {
      forall peer ensures PeerCount(c, dirs, m, peer)
                       == PeerCount(c, dirs, n, peer) + if peer == last.value.manifest.peer then 1 else 0 {
      }
    }
  }

  lemma SnapshotSize(c: Codec, dirs: seq<DirEntry>, n: nat, records: map<TransferId, StoredTransfer>)
    requires n < |dirs| && Snapshot(c, dirs, n, records) && Sane(c, dirs, n)
    ensures |records| == n <= MAX_DURABLE_TRANSFERS
    ensures dirs[n].id.Some? && dirs[n].id.value in records ==> Repeats(dirs, n)
  {
  }

  lemma CountIs(c: Codec, dirs: seq<DirEntry>, n: nat, counts: map<DeviceId, nat>, peer: DeviceId)
    requires n <= |dirs| && Counted(c, dirs, n, counts) && Sane(c, dirs, n)
    ensures (if peer in counts then counts[peer] else 0) == PeerCount(c, dirs, n, peer) <= MAX_DURABLE_TRANSFERS_PER_PEER
  {
  }

  /** What is wrong with the first directory that is out of bounds. */
  ghost function DirFault(c: Codec, dirs: seq<DirEntry>, i: nat): StoreError
    requires i < |dirs|
  {
    if i == MAX_DURABLE_TRANSFERS then RecordLimit else if dirs[i].id.None? then InvalidEntry else
    match ScanOf(c, dirs[i].files, dirs[i].id.value)
    case Err(e) => e
    case Ok(s) => if PeerCount(c, dirs, i, s.manifest.peer) == MAX_DURABLE_TRANSFERS_PER_PEER then PeerRecordLimit else InvalidEntry
  }

  /** All or nothing: the snapshot holds every directory's transfer, or there is none, and the
      first directory out of bounds says why. */
  method ScanTransferState(c: Codec, dirs: seq<DirEntry>) returns (r: Result<map<TransferId, StoredTransfer>, StoreError>)
    ensures r.Ok? <==> Sane(c, dirs, |dirs|)
    ensures r.Ok? ==> Snapshot(c, dirs, |dirs|, r.value)
    ensures r.Err? ==>
              exists i | 0 <= i < |dirs| :: Sane(c, dirs, i) && !Sane(c, dirs, i + 1) && r.error == DirFault(c, dirs, i)
  {
    var records: map<TransferId, StoredTransfer>, counts: map<DeviceId, nat> := map[], map[];
    var i := 0;
    NothingScanned(c, dirs);
    hide ScanOf, Sane, Snapshot, Counted, PeerCount, Repeats;
    while i < |dirs|
      invariant i <= |dirs| && Sane(c, dirs, i) && Snapshot(c, dirs, i, records) && Counted(c, dirs, i, counts)
    {
      SaneOrNever(c, dirs, i + 1);
      SaneNext(c, dirs, i);
      SnapshotSize(c, dirs, i, records);
      if |records| == MAX_DURABLE_TRANSFERS {
        return Err(RecordLimit);
      }
      if dirs[i].id.None? {
        return Err(InvalidEntry);
      }
      var id := dirs[i].id.value;
      var record := ScanRecord(c, dirs[i].files, id);
      if record.Err? {
        return Err(record.error);
      }
      var peer := record.value.manifest.peer;
      CountedGrows(c, dirs, i, counts, record.value);
      CountIs(c, dirs, i, counts, peer);
      var count := if peer in counts then counts[peer] else 0;
      if count == MAX_DURABLE_TRANSFERS_PER_PEER {
        return Err(PeerRecordLimit);
      }
      counts := counts[peer := count + 1];
      if id in records {
        return Err(InvalidEntry);
      }
      SnapshotGrows(c, dirs, i, records, record.value);
      records := records[id := record.value];
      i := i + 1;
    }
    return Ok(records);
  }

  lemma NothingScanned(c: Codec, dirs: seq<DirEntry>)
    ensures Sane(c, dirs, 0) && Snapshot(c, dirs, 0, map[]) && Counted(c, dirs, 0, map[])
  {
  }

  lemma SaneOrNever(c: Codec, dirs: seq<DirEntry>, n: nat)
    requires n <= |dirs|
    ensures Sane(c, dirs, |dirs|) ==> Sane(c, dirs, n)
  {
    if Sane(c, dirs, |dirs|) {
      SaneSoFar(c, dirs, n);
    }
  }
}
