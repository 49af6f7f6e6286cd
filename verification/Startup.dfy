/** Startup of the daemon: the trust journal is opened and replayed, then read page by page to seed
    the connectivity scheduler. */
module Startup {
  import opened Common
  import opened Connectivity
  import opened TrustJournal
  import opened Paging
  import opened TrustStores
  import opened Supervisor
  import opened Registry
  import opened SupervisorRuns
  import opened Daemons

  const MAX_PEER_PAGE_SIZE: nat := 128

  /** A trust decision names the identity it is filed under. */
  predicate Keyed(ds: Decisions) {
    forall d | d in ds && ds[d].Trusted? :: ds[d].peer.deviceId == d
  }

  lemma {:induction false} ReplayIsKeyed(c: Codec, bytes: seq<byte>, offset: nat, ds: Decisions, n: nat)
    requires offset <= |bytes| && Keyed(ds)
    ensures ReplayFrom(c, bytes, offset, ds, n).Ok? ==> Keyed(ReplayFrom(c, bytes, offset, ds, n).value.decisions)
    decreases |bytes| - offset
  {
    hide Look;
    if Look(c, bytes, offset, ds, n).Whole? {
      var f := Look(c, bytes, offset, ds, n);
      LookMovesOn(c, bytes, offset, ds, n);
      ReplayIsKeyed(c, bytes, f.end, Apply(ds, f.m), n + 1);
    }
  }

  lemma LookMovesOn(c: Codec, bytes: seq<byte>, offset: nat, ds: Decisions, n: nat)
    requires offset <= |bytes| && Look(c, bytes, offset, ds, n).Whole?
    ensures offset < Look(c, bytes, offset, ds, n).end <= |bytes|
  {
  }

  lemma ReopenedIsKeyed(c: Codec, bytes: seq<byte>)
    ensures Reopen(c, bytes).Ok? ==> Keyed(Reopen(c, bytes).value.decisions)
  {
    if |bytes| >= HEADER_LEN {
      ReplayIsKeyed(c, bytes, HEADER_LEN, map[], 0);
    }
  }

  // ----- seeding -----

  predicate Wanted(ds: Decisions, self: DeviceId, d: DeviceId) {
    d in ds && ds[d].Trusted? && d != self
  }

  /** The trusted peers other than this device. */
  ghost function TrustedPeers(ds: Decisions, self: DeviceId): set<DeviceId> {
    set d | d in ds && Wanted(ds, self, d)
  }

  /** The scheduler holds exactly the wanted peers among the first `n` identities, all due at once. */
  ghost predicate Seeded(ds: Decisions, self: DeviceId, keys: seq<DeviceId>, n: nat, sched: Sched, now: Instant)
    requires n <= |keys|
  {
    && |sched.peers| <= MAX_MANAGED_PEERS
    && (forall d | d in sched.peers :: Wanted(ds, self, d) && d in keys[..n] && sched.peers[d] == NewPeer(now))
    && (forall i | 0 <= i < n && Wanted(ds, self, keys[i]) :: keys[i] in sched.peers)
  }

  lemma SeedNext(ds: Decisions, self: DeviceId, keys: seq<DeviceId>, n: nat, sched: Sched, now: Instant)
    requires n < |keys| && Seeded(ds, self, keys, n, sched, now)
    ensures !Wanted(ds, self, keys[n]) ==> Seeded(ds, self, keys, n + 1, sched, now)
    ensures Wanted(ds, self, keys[n]) && sched.HasRoom(keys[n]) ==> Seeded(ds, self, keys, n + 1, sched.Insert(keys[n], now), now)
  {
  }

  /** A full scheduler that lacks a wanted peer shows there are too many of them. */
  lemma TooMany(ds: Decisions, self: DeviceId, keys: seq<DeviceId>, n: nat, sched: Sched, now: Instant)
    requires n < |keys| && Seeded(ds, self, keys, n, sched, now) && Wanted(ds, self, keys[n]) && !sched.HasRoom(keys[n])
    ensures |TrustedPeers(ds, self)| > MAX_MANAGED_PEERS
  {
    var all := sched.peers.Keys + {keys[n]};
    assert |all| == |sched.peers| + 1;
    FewerElements(all, TrustedPeers(ds, self));
  }

  lemma AllSeeded(ds: Decisions, self: DeviceId, sched: Sched, now: Instant)
    requires Seeded(ds, self, From(ds.Keys, 0), |From(ds.Keys, 0)|, sched, now)
    ensures sched.peers.Keys == TrustedPeers(ds, self) && |TrustedPeers(ds, self)| <= MAX_MANAGED_PEERS
    ensures forall d | d in sched.peers :: sched.peers[d] == NewPeer(now)
  {
    hide InRange, Wanted;
    var keys := From(ds.Keys, 0);
    InRangeIsEnumeration(ds.Keys, 0, ID_LIMIT);
    forall d: DeviceId | d in TrustedPeers(ds, self) ensures d in sched.peers {
      WantedIsStored(ds, self, d);
      assert d in keys;
      var i :| 0 <= i < |keys| && keys[i] == d;
    }
    assert |sched.peers| == |sched.peers.Keys|;
  }

  lemma WantedIsStored(ds: Decisions, self: DeviceId, d: DeviceId)
    requires Wanted(ds, self, d)
    ensures d in ds
  {
  }

  lemma PageEntry(ds: Decisions, keys: seq<DeviceId>, seen: nat, n: nat, page: TrustPage, i: nat, self: DeviceId)
    requires seen + n <= |keys| && EntriesOf(ds, keys[..seen]) + page.entries == EntriesOf(ds, keys[..seen + n])
    requires i < |page.entries| && Keyed(ds) && keys[seen + i] in ds
    ensures page.entries[i].TrustedEntry? ==> page.entries[i].peer.deviceId == keys[seen + i]
    ensures page.entries[i].TrustedEntry? && page.entries[i].peer.deviceId != self <==> Wanted(ds, self, keys[seen + i])
  {
    assert (EntriesOf(ds, keys[..seen]) + page.entries)[seen + i] == page.entries[i];
  }

  /** Inserts the trusted peers of one page; fails when the scheduler is full. */
  method SeedPage(page: TrustPage, self: DeviceId, scheduler: Scheduler, now: Instant,
                  ghost ds: Decisions, ghost keys: seq<DeviceId>, ghost seen: nat, ghost n: nat) returns (ok: bool)
    requires Keyed(ds) && keys == From(ds.Keys, 0) && seen + n <= |keys| && |page.entries| == n
    requires EntriesOf(ds, keys[..seen]) + page.entries == EntriesOf(ds, keys[..seen + n])
    requires Seeded(ds, self, keys, seen, scheduler.View(), now)
    modifies scheduler
    ensures ok ==> Seeded(ds, self, keys, seen + n, scheduler.View(), now)
    ensures !ok ==> |TrustedPeers(ds, self)| > MAX_MANAGED_PEERS
  {
    hide Seeded, From, EntriesOf, Wanted, Keyed;
    var i := 0;
    while i < |page.entries|
      invariant 0 <= i <= |page.entries| && Seeded(ds, self, keys, seen + i, scheduler.View(), now)
    {
      KeysAreStored(ds, seen + i);
      PageEntry(ds, keys, seen, n, page, i, self);
      SeedNext(ds, self, keys, seen + i, scheduler.View(), now);
      match page.entries[i] {
        case TrustedEntry(peer) =>
          if peer.deviceId != self {
            ghost var before := scheduler.View();
            var inserted := scheduler.Insert(peer.deviceId, now);
            if !inserted {
              TooMany(ds, self, keys, seen + i, before, now);
              return false;
            }
          }
        case RevokedEntry(_) =>
      }
      i := i + 1;
    }
    return true;
  }

  lemma KeysAreStored(ds: Decisions, i: nat)
    ensures i < |From(ds.Keys, 0)| ==> From(ds.Keys, 0)[i] in ds
  {
    InRangeIsEnumeration(ds.Keys, 0, ID_LIMIT);
    if i < |From(ds.Keys, 0)| {
      assert From(ds.Keys, 0)[i] in From(ds.Keys, 0);
    }
  }

  /** STARTUP. Seeding succeeds exactly when the trusted peers other than this device number at
      most 4096, and then the scheduler manages exactly those. */
  method SeedScheduler(store: TrustStore, self: DeviceId, now: Instant) returns (r: Option<Scheduler>)
    requires Keyed(store.decisions)
    ensures r.Some? <==> |TrustedPeers(store.decisions, self)| <= MAX_MANAGED_PEERS
    ensures r.Some? ==> fresh(r.value) && r.value.peers.Keys == TrustedPeers(store.decisions, self)
    ensures r.Some? ==> forall d | d in r.value.peers :: r.value.peers[d] == NewPeer(now)
  {
    hide Seeded, Reached, From, EntriesOf, IsPage, Keyed, TrustedPeers;
    ghost var ds := store.decisions;
    ghost var keys, seen := From(ds.Keys, 0), 0;
    NothingSeeded(ds, self, now);
    var scheduler := new Scheduler(now);
    var after: Option<DeviceId> := None;
    while true
      invariant fresh(scheduler) && store.decisions == ds && Reached(ds, keys, seen, after) && seen <= |keys|
      invariant Seeded(ds, self, keys, seen, scheduler.View(), now)
      decreases |keys| - seen
    {
      var page := store.ListPage(after, MAX_PEER_PAGE_SIZE);
      ghost var n := PageReaches(ds, keys, seen, after, page.value);
      var ok := SeedPage(page.value, self, scheduler, now, ds, keys, seen, n);
      if !ok {
        return None;
      }
      seen := seen + n;
      after := page.value.nextCursor;
      if after.None? {
        AllSeeded(ds, self, scheduler.View(), now);
        return Some(scheduler);
      }
    }
  }

  /** The cursor stands after the first `seen` identities. */
  ghost predicate Reached(ds: Decisions, keys: seq<DeviceId>, seen: nat, after: Option<DeviceId>) {
    seen <= |keys| && keys[seen..] == From(ds.Keys, Start(after))
  }

  lemma NothingSeeded(ds: Decisions, self: DeviceId, now: Instant)
    ensures Seeded(ds, self, From(ds.Keys, 0), 0, Sched(map[], now), now) && Reached(ds, From(ds.Keys, 0), 0, None)
  {
  }

  lemma PageReaches(ds: Decisions, keys: seq<DeviceId>, seen: nat, after: Option<DeviceId>, page: TrustPage) returns (n: nat)
    requires Reached(ds, keys, seen, after) && IsPage(ds, after, MAX_PEER_PAGE_SIZE, page)
    ensures seen + n <= |keys| && |page.entries| == n
    ensures EntriesOf(ds, keys[..seen]) + page.entries == EntriesOf(ds, keys[..seen + n])
    ensures if page.nextCursor.None? then seen + n == |keys| else n > 0 && Reached(ds, keys, seen + n, page.nextCursor)
  {
    hide From, EntriesOf, IsPage;
    n := PageAdvances(ds, keys, seen, after, MAX_PEER_PAGE_SIZE, page);
    PageSize(ds, keys, seen, n, page);
  }

  lemma PageSize(ds: Decisions, keys: seq<DeviceId>, seen: nat, n: nat, page: TrustPage)
    requires seen + n <= |keys| && EntriesOf(ds, keys[..seen]) + page.entries == EntriesOf(ds, keys[..seen + n])
    ensures |page.entries| == n
  {
  }

  datatype StartError = InvalidConfiguration | JournalRejected(error: TrustError) | TooManyPeers

  /** Every configured count is at least one and within its hard bound. */
  predicate ValidConfig(config: Config) {
    && 1 <= config.workers <= 256 && 1 <= config.maxDials <= 64 && 1 <= config.maxSessions <= 128
    && 1 <= config.maxPending <= 64 && 1 <= config.maxIpc <= 64
  }

  /** From the bytes of an existing journal to a store and a daemon that has just started, with a
      scheduler seeded from it: a state from which every run is sound. */
  method StartDaemon(c: Codec, bytes: seq<byte>, config: Config, now: Instant) returns (r: Result<(TrustStore, Daemon), StartError>)
    ensures r.Ok? <==>
      && ValidConfig(config) && Reopen(c, bytes).Ok?
      && |TrustedPeers(Reopen(c, bytes).value.decisions, config.self)| <= MAX_MANAGED_PEERS
    ensures r.Err? ==>
      && (r.error == InvalidConfiguration <==> !ValidConfig(config))
      && (r.error == TooManyPeers <==> ValidConfig(config) && Reopen(c, bytes).Ok?)
      && (r.error.JournalRejected? ==> Reopen(c, bytes) == Err(r.error.error))
    ensures r.Ok? ==>
      && r.value.0.View() == Reopen(c, bytes).value && r.value.1.config == config
      && r.value.1.connectivity.peers.Keys == TrustedPeers(Reopen(c, bytes).value.decisions, config.self)
      && JustStarted(World(r.value.1.View(), r.value.0.View()))
  {
    hide Reopen, TrustedPeers, Keyed;
    if !ValidConfig(config) {
      return Err(InvalidConfiguration);
    }
    ReopenedIsKeyed(c, bytes);
    var store := OpenExisting(c, bytes);
    if store.Err? {
      return Err(JournalRejected(store.error));
    }
    var scheduler := SeedScheduler(store.value, config.self, now);
    if scheduler.None? {
      return Err(TooManyPeers);
    }
    var daemon := new Daemon(config, scheduler.value);
    assert |scheduler.value.peers| == |scheduler.value.peers.Keys|;
    return Ok((store.value, daemon));
  }
}
