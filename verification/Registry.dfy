/** What every step of the supervisor keeps: the registries agree with each other, stay within
    their bounds, authorize every session, leave suspended peers alone and lose no caller. */
module Registry {
  import opened Common
  import opened Connectivity
  import opened TrustJournal
  import opened Supervisor

  type Sessions = map<SessionId, SessionRecord>
  type Peers = map<DeviceId, Peer>
  type Dials = map<DeviceId, DialRecord>

  // ----- the invariants -----

  /** A peer's scheduler entry names session `s` exactly when the registry holds `s` for it. In
      particular a peer has at most one session, and every session's peer is managed. */
  ghost predicate Agrees(sessions: Sessions, peers: Peers) {
    && (forall sid | sid in sessions ::
          sessions[sid].device in peers && peers[sessions[sid].device].sessionId == Some(sid))
    && (forall d | d in peers && peers[d].sessionId.Some? ::
          peers[d].sessionId.value in sessions && sessions[peers[d].sessionId.value].device == d)
  }

  /** Every session is run by its own task, and session identifiers come from the counter. */
  ghost predicate Held(sessions: Sessions, tasks: map<SessionId, Holder>, next: nat) {
    && (forall sid | sid in sessions :: sid in tasks && tasks[sid] == Holder(sessions[sid].device, sessions[sid].conn))
    && (forall sid | sid in tasks :: sid < next)
  }

  /** Every pairing is run by its own task, and pairing identifiers come from the counter. */
  ghost predicate Numbered(pending: map<PairingId, PendingRecord>, tasks: map<PairingId, Holder>, next: nat) {
    && (forall pid | pid in pending :: pid in tasks && tasks[pid] == Holder(pending[pid].device, pending[pid].conn))
    && (forall pid | pid in tasks :: pid < next)
  }

  /** `spare` accept workers are between finishing and being started again. */
  predicate Bounded(r: Runtime, spare: nat) {
    && |r.sessions| <= r.config.maxSessions
    && |r.dials| <= r.config.maxDials
    && |r.pending| <= r.config.maxPending
    && |r.sched.peers| <= MAX_MANAGED_PEERS
    && r.tasks.accept + spare == r.config.workers
    && r.tasks.Owned() + spare <= MAX_OWNED_TASKS
  }

  /** Dial records and dial tasks correspond one to one; only uncancelled records have waiters,
      and never more than sixteen. */
  ghost predicate Dialled(dials: Dials, tasks: set<(DeviceId, nat)>) {
    && (forall d | d in dials :: (d, dials[d].token) in tasks && DialFits(dials[d]))
    && (forall t | t in tasks :: t.0 in dials && dials[t.0].token == t.1)
  }

  predicate DialFits(rec: DialRecord) {
    |rec.replies| <= MAX_DIAL_WAITERS && (rec.cancelled ==> rec.replies == [])
  }

  /** A suspended peer is never due, and no live dial could make it due. */
  ghost predicate Quiet(peers: Peers, dials: Dials) {
    forall d | d in peers && peers[d].suspended :: peers[d].due.None? && (d in dials ==> Harmless(dials[d]))
  }

  predicate Harmless(rec: DialRecord) {
    rec.cancelled || rec.pairing
  }

  ghost predicate Sound(r: Runtime, spare: nat) {
    && Agrees(r.sessions, r.sched.peers)
    && Held(r.sessions, r.tasks.sessions, r.nextSession)
    && Numbered(r.pending, r.tasks.pairings, r.nextPairing)
    && Bounded(r, spare)
    && Dialled(r.dials, r.tasks.dials)
    && Quiet(r.sched.peers, r.dials)
  }

  /** Every registered session's peer is trusted now, and has not been forgotten since the
      session's connection was admitted. */
  ghost predicate AllAuthorized(sessions: Sessions, store: Store) {
    forall sid | sid in sessions ::
      store.IsTrusted(sessions[sid].device) && store.Generation(sessions[sid].device) == sessions[sid].generation
  }

  ghost predicate Inv(w: World) {
    Sound(w.rt, 0) && AllAuthorized(w.rt.sessions, w.store)
  }

  // ----- finite maps -----

  lemma {:induction false} FewerElements<T>(a: set<T>, b: set<T>)
    requires a <= b
    ensures |a| <= |b|
    decreases |a|
  {
    if a != {} {
      var x :| x in a;
      FewerElements(a - {x}, b - {x});
    }
  }

  lemma FewerKeys<K, V>(m: map<K, V>, n: map<K, V>)
    requires n.Keys <= m.Keys
    ensures |n| <= |m|
  {
    FewerElements(n.Keys, m.Keys);
    assert |n| == |n.Keys| && |m| == |m.Keys|;
  }

  lemma RemovedKey<K, V>(m: map<K, V>, k: K)
    ensures |m - {k}| == |m| - if k in m then 1 else 0
  {
  }

  // ----- how each registry may change -----

  lemma AgreesRemove(sessions: Sessions, peers: Peers, sid: SessionId, p: Peer)
    requires Agrees(sessions, peers) && sid in sessions && p.sessionId.None?
    ensures Agrees(sessions - {sid}, peers[sessions[sid].device := p])
  {
  }

  lemma AgreesPurge(sessions: Sessions, peers: Peers, d: DeviceId)
    requires Agrees(sessions, peers)
    ensures Agrees(map sid | sid in sessions && sessions[sid].device != d :: sessions[sid], peers - {d})
  {
  }

  lemma HeldFewer(sessions: Sessions, fewer: Sessions, tasks: map<SessionId, Holder>, next: nat)
    requires Held(sessions, tasks, next)
    requires forall sid | sid in fewer :: sid in sessions && fewer[sid] == sessions[sid]
    ensures Held(fewer, tasks, next)
  {
  }

  lemma NumberedAdd(pending: map<PairingId, PendingRecord>, tasks: map<PairingId, Holder>, next: nat, rec: PendingRecord)
    requires Numbered(pending, tasks, next)
    ensures Numbered(pending[next := rec], tasks[next := Holder(rec.device, rec.conn)], next + 1) && next !in tasks && next !in pending
  {
  }

  lemma NumberedFewer(pending: map<PairingId, PendingRecord>, fewer: map<PairingId, PendingRecord>, tasks: map<PairingId, Holder>, next: nat)
    requires Numbered(pending, tasks, next) && forall pid | pid in fewer :: pid in pending && SameHolder(fewer[pid], pending[pid])
    ensures Numbered(fewer, tasks, next)
  {
  }

  lemma NumberedTake(pending: map<PairingId, PendingRecord>, tasks: map<PairingId, Holder>, next: nat, pid: PairingId)
    requires Numbered(pending, tasks, next)
    ensures Numbered(pending - {pid}, tasks - {pid}, next)
  {
  }

  predicate SameHolder(a: PendingRecord, b: PendingRecord) {
    a.device == b.device && a.conn == b.conn
  }

  lemma DialledAdd(dials: Dials, tasks: set<(DeviceId, nat)>, d: DeviceId, token: nat, pairing: bool)
    requires Dialled(dials, tasks) && d !in dials
    ensures Dialled(dials[d := DialRecord(token, pairing, [], false)], tasks + {(d, token)})
    ensures (d, token) !in tasks
  {
  }

  lemma DialledTake(dials: Dials, tasks: set<(DeviceId, nat)>, d: DeviceId)
    requires Dialled(dials, tasks) && d in dials
    ensures Dialled(dials - {d}, tasks - {(d, dials[d].token)})
  {
  }

  lemma QuietSet(peers: Peers, dials: Dials, d: DeviceId, p: Peer)
    requires Quiet(peers, dials)
    requires p.suspended ==> p.due.None? && (d in dials ==> Harmless(dials[d]))
    ensures Quiet(peers[d := p], dials)
  {
  }

  lemma QuietDial(peers: Peers, dials: Dials, d: DeviceId, rec: DialRecord)
    requires Quiet(peers, dials)
    requires d in peers && peers[d].suspended ==> Harmless(rec)
    ensures Quiet(peers, dials[d := rec])
  {
  }

  lemma QuietFewer(peers: Peers, dials: Dials, d: DeviceId)
    ensures Quiet(peers, dials) ==> Quiet(peers - {d}, dials) && Quiet(peers, dials - {d})
  {
  }

  // ----- changing one peer -----

  /** A peer may be replaced by one with the same session that keeps quiet if it must. */
  lemma PeerChangeKeeps(r: Runtime, d: DeviceId, p: Peer, spare: nat)
    requires Sound(r, spare) && d in r.sched.peers
    requires p.sessionId == r.sched.peers[d].sessionId
    requires p.suspended ==> p.due.None? && (d in r.dials ==> Harmless(r.dials[d]))
    ensures Sound(SetPeer(r, d, p), spare)
  {
  }

  lemma InsertKeeps(r: Runtime, d: DeviceId, now: Instant, spare: nat)
    requires Sound(r, spare)
    ensures Sound(r.(sched := r.sched.Insert(d, now)), spare)
  {
  }

  lemma MarkDiallingKeeps(r: Runtime, d: DeviceId, spare: nat)
    requires Sound(r, spare)
    requires d in r.sched.peers && r.sched.peers[d].suspended && d in r.dials ==> Harmless(r.dials[d])
    ensures Sound(MarkDialling(r, d), spare)
  {
  }

  // ----- dialling -----

  lemma AddDialKeeps(r: Runtime, d: DeviceId, pairing: bool)
    requires Sound(r, 0) && d !in r.dials
    requires |r.dials| < r.config.maxDials && r.tasks.Owned() < MAX_OWNED_TASKS
    requires !pairing && d in r.sched.peers ==> !r.sched.peers[d].suspended
    ensures Sound(AddDial(r, d, pairing), 0)
  {
    hide Agrees, Held, Numbered, Dialled, Quiet;
    DialledAdd(r.dials, r.tasks.dials, d, r.nextDial, pairing);
    QuietDial(r.sched.peers, r.dials, d, DialRecord(r.nextDial, pairing, [], false));
  }

  lemma StartDialKeeps(r: Runtime, d: DeviceId, pairing: bool, env: Env)
    requires Sound(r, 0)
    requires !pairing && d in r.sched.peers ==> !r.sched.peers[d].suspended
    ensures Sound(StartDial(r, d, pairing, env).0, 0)
  {
    hide Agrees, Held, Numbered, Dialled, Quiet, Bounded;
    if d in r.dials {
      if !pairing && !Busy(r.dials[d]) {
        MarkDiallingKeeps(r, d, 0);
      }
    } else if StartDial(r, d, pairing, env).1.Ok? {
      AddDialKeeps(r, d, pairing);
      MarkDiallingKeeps(AddDial(r, d, pairing), d, 0);
    }
  }

  predicate Retryable(failure: Failure) {
    failure == Network || failure == Capacity
  }

  predicate Resting(r: Runtime, d: DeviceId) {
    d in r.sched.peers && r.sched.peers[d].suspended
  }

  lemma MarkFailedKeeps(r: Runtime, d: DeviceId, code: Code, env: Env, spare: nat)
    requires Sound(r, spare)
    requires Resting(r, d) ==> !Retryable(Category(code)) && (d in r.dials ==> Harmless(r.dials[d]))
    ensures Sound(MarkFailed(r, d, code, env), spare)
  {
    hide Agrees, Held, Numbered, Dialled, Quiet, Bounded;
    if d in r.sched.peers {
      PeerChangeKeeps(r, d, r.sched.peers[d].Fail(Category(code), env.now, env.sample), spare);
    }
  }

  /** Managing the peer, and waking it when the caller is a person. */
  lemma PrepareKeeps(r: Runtime, d: DeviceId, manual: bool, env: Env)
    requires Sound(r, 0) && r.sched.HasRoom(d) && (manual || !Resting(r, d))
    ensures var r1 := r.(sched := r.sched.Insert(d, env.now));
            && d in r1.sched.peers && Sound(r1, 0)
            && var r2 := if manual then SetPeer(r1, d, r1.sched.peers[d].Resume(env.now)) else r1;
               Sound(r2, 0) && !Resting(r2, d) && r2.dials == r.dials
  {
    hide Sound;
    var r1 := r.(sched := r.sched.Insert(d, env.now));
    InsertKeeps(r, d, env.now, 0);
    PeerChangeKeeps(r1, d, r1.sched.peers[d].Resume(env.now), 0);
  }

  /** A dial that goes ahead joins an uncancelled record with room for one more caller; one that
      fails leaves a suspended peer with nothing that could be retried. */
  lemma StartOutboundKeeps(r: Runtime, store: Store, d: DeviceId, pairing: bool, manual: bool, env: Env)
    requires Sound(r, 0)
    requires pairing || manual || !Resting(r, d)
    ensures var (s, result) := StartOutbound(r, store, d, pairing, manual, env);
            && Sound(s, 0)
            && (result == Ok(None) ==> d in s.dials && !s.dials[d].cancelled && |s.dials[d].replies| < MAX_DIAL_WAITERS)
            && (result.Err? && !pairing && d !in s.dials && Resting(s, d) ==> !Retryable(Category(result.error)))
            && (result.Ok? && result.value.Some? ==> OpenSession(s, d, result.value.value))
            && (result == Ok(None) && !pairing ==> !Resting(s, d))
  {
    hide Sound;
    if DialRefusal(r, store, d, pairing).None? {
      if pairing {
        StartDialKeeps(r, d, true, env);
      } else {
        PrepareKeeps(r, d, manual, env);
        var r1 := r.(sched := r.sched.Insert(d, env.now));
        StartDialKeeps(if manual then SetPeer(r1, d, r1.sched.peers[d].Resume(env.now)) else r1, d, false, env);
      }
    }
  }

  lemma AddWaitersKeeps(r: Runtime, d: DeviceId, replies: seq<ReplyId>)
    requires Sound(r, 0) && d in r.dials && !r.dials[d].cancelled
    requires |r.dials[d].replies| + |replies| <= MAX_DIAL_WAITERS
    ensures Sound(AddWaiters(r, d, replies), 0)
  {
  }

  lemma CancelDialKeeps(r: Runtime, d: DeviceId, answer: Answer, spare: nat)
    requires Sound(r, spare)
    ensures Sound(CancelDial(r, d, answer), spare)
  {
  }

  /** Answering callers and closing connections touch no registry. */
  lemma AnswerCloseKeeps(r: Runtime, replies: seq<ReplyId>, answer: Answer, conn: ConnId, spare: nat)
    requires Sound(r, spare)
    ensures Sound(AnswerAll(r, replies, answer), spare) && Sound(Close(r, conn), spare)
  {
  }

  lemma SpawnOutboundKeeps(r: Runtime, store: Store, d: DeviceId, pairing: bool, reply: Option<ReplyId>, env: Env)
    requires Sound(r, 0)
    requires pairing || reply.Some? || !Resting(r, d)
    ensures Sound(SpawnOutbound(r, store, d, pairing, reply, env), 0)
  {
    hide Agrees, Held, Numbered, Dialled, Quiet, Bounded, StartOutbound;
    var (s, result) := StartOutbound(r, store, d, pairing, reply.Some?, env);
    StartOutboundKeeps(r, store, d, pairing, reply.Some?, env);
    match result {
      case Ok(Some(sid)) => AnswerCloseKeeps(s, AsReplies(reply), ToSession(d, sid), 0, 0);
      case Ok(None) => AddWaitersKeeps(s, d, AsReplies(reply));
      case Err(code) =>
        if !pairing && Canonical(s, d).None? && d !in s.dials {
          MarkFailedKeeps(s, d, code, env, 0);
          AnswerCloseKeeps(MarkFailed(s, d, code, env), AsReplies(reply), Refused(code), 0, 0);
        } else {
          AnswerCloseKeeps(s, AsReplies(reply), Refused(code), 0, 0);
        }
    }
  }

  /** Taking a due peer to dial it. */
  lemma TakeDueKeeps(r: Runtime, now: Instant)
    requires Sound(r, 0)
    ensures Sound(r.(sched := r.sched.TakeDue(now)), 0)
    ensures r.sched.Pick(now).Some? ==> !Resting(r.(sched := r.sched.TakeDue(now)), r.sched.Pick(now).value)
  {
    hide Agrees, Held, Numbered, Dialled, Bounded;
    if r.sched.Pick(now).Some? {
      var d := r.sched.Pick(now).value;
      assert !Resting(r, d);
      var r1 := r.(sched := r.sched.TakeDue(now));
      PeerChangeKeeps(r, d, r.sched.peers[d].Dialling(), 0);
      assert r1.sched.peers == SetPeer(r, d, r.sched.peers[d].Dialling()).sched.peers;
      SameButClock(SetPeer(r, d, r.sched.peers[d].Dialling()), r1, 0);
    }
  }

  lemma FireKeeps(r: Runtime, store: Store, env: Env)
    requires Sound(r, 0)
    ensures Sound(Fire(r, store, env), 0)
  {
    hide Sound, SpawnOutbound;
    if |r.dials| < r.config.maxDials && r.sched.Pick(env.now).Some? {
      TakeDueKeeps(r, env.now);
      SpawnOutboundKeeps(r.(sched := r.sched.TakeDue(env.now)), store, r.sched.Pick(env.now).value, false, None, env);
    }
  }

  lemma SameButClock(r: Runtime, s: Runtime, spare: nat)
    requires Sound(r, spare) && s == r.(sched := s.sched) && s.sched.peers == r.sched.peers
    ensures Sound(s, spare)
  {
  }

  // ----- sessions -----

  /** A peer's registered session is the one its scheduler entry names. */
  lemma ExistingIsNamed(r: Runtime, d: DeviceId, spare: nat)
    requires Sound(r, spare) && d in r.sched.peers
    ensures Existing(r, d) == r.sched.peers[d].sessionId
  {
    hide Held, Numbered, Dialled, Quiet, Bounded;
    var named := r.sched.peers[d].sessionId;
    if named.Some? {
      assert SessionWith(r, d, named.value);
    }
  }

  function Gone(existing: Option<SessionId>): set<SessionId> {
    if existing.Some? then {existing.value} else {}
  }

  /** `s` is `r` with a new session in place of the one its peer had, and nothing else changed
      but connections closed. */
  ghost predicate Added(r: Runtime, s: Runtime, rec: SessionRecord, existing: Option<SessionId>) {
    && rec.device in r.sched.peers && rec.device in s.sched.peers
    && var p := s.sched.peers[rec.device];
    && s.sched.peers == r.sched.peers[rec.device := p]
    && p.sessionId == Some(r.nextSession) && p.due.None? && p.suspended == r.sched.peers[rec.device].suspended
    && s.sessions == (r.sessions - Gone(existing))[r.nextSession := rec]
    && s.tasks.sessions == r.tasks.sessions[r.nextSession := Holder(rec.device, rec.conn)]
    && s.tasks.dials == r.tasks.dials && s.tasks.pairings == r.tasks.pairings
    && s.tasks.accept == r.tasks.accept && s.tasks.ipc == r.tasks.ipc
    && s.nextSession == r.nextSession + 1
    && s.dials == r.dials && s.pending == r.pending && s.config == r.config
    && s.nextPairing == r.nextPairing && s.nextDial == r.nextDial && s.answers == r.answers && s.running == r.running
  }

  lemma AddedShape(r: Runtime, c: Candidate, origin: Origin, existing: Option<SessionId>, env: Env)
    requires c.device in r.sched.peers && (existing.Some? ==> existing.value in r.sessions)
    ensures Added(r, AddSession(Displace(r, c.device, existing, env), c, origin, env.now),
                  SessionRecord(c.device, c.conn, origin, c.generation), existing)
  {
    if existing.None? {
      assert r.sessions - {} == r.sessions;
    }
  }

  lemma AddedAgrees(r: Runtime, s: Runtime, rec: SessionRecord, existing: Option<SessionId>)
    requires Agrees(r.sessions, r.sched.peers) && Held(r.sessions, r.tasks.sessions, r.nextSession)
    requires Added(r, s, rec, existing) && existing == r.sched.peers[rec.device].sessionId
    ensures Agrees(s.sessions, s.sched.peers) && Held(s.sessions, s.tasks.sessions, s.nextSession)
    ensures r.nextSession !in r.tasks.sessions
    ensures existing.Some? ==> existing.value in r.sessions
  {
  }

  lemma AddedQuiet(r: Runtime, s: Runtime, rec: SessionRecord, existing: Option<SessionId>)
    requires Quiet(r.sched.peers, r.dials) && Added(r, s, rec, existing)
    ensures Quiet(s.sched.peers, s.dials)
  {
  }

  /** Registering a session, displacing the peer's former one if it has one. */
  lemma AddedKeeps(r: Runtime, s: Runtime, rec: SessionRecord, spare: nat)
    requires Sound(r, spare) && rec.device in r.sched.peers && spare <= 1
    requires Added(r, s, rec, r.sched.peers[rec.device].sessionId)
    requires r.tasks.Owned() < MAX_OWNED_TASKS - 1
    requires r.sched.peers[rec.device].sessionId.None? ==> |r.sessions| < r.config.maxSessions
    ensures Sound(s, spare)
  {
    hide Agrees, Held, Numbered, Dialled, Quiet, Bounded;
    var existing := r.sched.peers[rec.device].sessionId;
    AddedAgrees(r, s, rec, existing);
    AddedQuiet(r, s, rec, existing);
    AddedIsBounded(r, s, existing, rec, spare);
  }

  lemma AddedIsBounded(r: Runtime, s: Runtime, existing: Option<SessionId>, rec: SessionRecord, spare: nat)
    requires Bounded(r, spare) && spare <= 1 && r.tasks.Owned() < MAX_OWNED_TASKS - 1
    requires if existing.Some? then existing.value in r.sessions else |r.sessions| < r.config.maxSessions
    requires r.nextSession !in r.tasks.sessions
    requires Added(r, s, rec, existing)
    ensures Bounded(s, spare)
  {
  }

  lemma ExistingIsRegistered(r: Runtime, d: DeviceId)
    ensures Existing(r, d).Some? ==> SessionWith(r, d, Existing(r, d).value)
  {
  }

  lemma NotDueWhenQuiet(r: Runtime, d: DeviceId, spare: nat)
    requires Sound(r, spare)
    ensures Resting(r, d) && d in r.dials ==> Harmless(r.dials[d])
  {
  }

  /** Beyond adding the session, installing it at most cancels the dial it makes needless. */
  lemma InstallIsAdd(r: Runtime, c: Candidate, origin: Origin, env: Env)
    ensures var s := AddSession(r, c, origin, env.now);
            && Install(r, c, origin, env).sched == s.sched
            && (Install(r, c, origin, env) == s || Install(r, c, origin, env) == CancelDial(s, c.device, ToSession(c.device, r.nextSession)))
  {
  }

  lemma SeatKeeps(r: Runtime, c: Candidate, origin: Origin, env: Env, spare: nat)
    requires Sound(r, spare) && spare <= 1 && c.device in r.sched.peers
    ensures Sound(Seat(r, c, origin, env).0, spare)
  {
    hide Agrees, Held, Numbered, Dialled, Quiet, Bounded, AddSession, Displace, Added, Install, CancelDial;
    AnswerCloseKeeps(r, [], Refused(Internal), c.conn, spare);
    if Judge(r, c, origin).Admit? {
      var base := Displace(r, c.device, Existing(r, c.device), env);
      var s := AddSession(base, c, origin, env.now);
      ExistingIsNamed(r, c.device, spare);
      AddedShape(r, c, origin, Existing(r, c.device), env);
      AddedKeeps(r, s, SessionRecord(c.device, c.conn, origin, c.generation), spare);
      CancelDialKeeps(s, c.device, ToSession(c.device, base.nextSession), spare);
      InstallIsAdd(base, c, origin, env);
    }
  }

  lemma RegisterSessionKeeps(r: Runtime, store: Store, c: Candidate, origin: Origin, env: Env, spare: nat)
    requires Sound(r, spare) && spare <= 1
    ensures Sound(RegisterSession(r, store, c, origin, env).0, spare)
  {
    hide Agrees, Held, Numbered, Dialled, Quiet, Bounded, Seat;
    AnswerCloseKeeps(r, [], Refused(Internal), c.conn, spare);
    if Screen(r, store, c).None? {
      InsertKeeps(r, c.device, env.now, spare);
      SeatKeeps(r.(sched := r.sched.Insert(c.device, env.now)), c, origin, env, spare);
    }
  }

  lemma RegisterPendingKeeps(r: Runtime, store: Store, c: Candidate, origin: Origin, spare: nat)
    requires Sound(r, spare) && spare <= 1
    ensures Sound(RegisterPending(r, store, c, origin).0, spare)
  {
    hide Agrees, Held, Numbered, Dialled, Quiet;
    AnswerCloseKeeps(r, [], Refused(Internal), c.conn, spare);
    NumberedAdd(r.pending, r.tasks.pairings, r.nextPairing, PendingRecord(c.device, c.conn, origin, None));
  }

  /** Taking a session out of the registry; `p` is what becomes of its peer. */
  lemma RemoveSessionKeeps(r: Runtime, sid: SessionId, p: Peer, spare: nat)
    requires Sound(r, spare) && sid in r.sessions && p.sessionId.None?
    requires p.suspended ==> p.due.None? && (r.sessions[sid].device in r.dials ==> Harmless(r.dials[r.sessions[sid].device]))
    ensures Sound(RemoveSession(r, sid, p), spare)
  {
    AgreesRemove(r.sessions, r.sched.peers, sid, p);
    HeldFewer(r.sessions, r.sessions - {sid}, r.tasks.sessions, r.nextSession);
    QuietSet(r.sched.peers, r.dials, r.sessions[sid].device, p);
    RemovedKey(r.sessions, sid);
    assert r.sessions[sid].device in r.sched.peers;
    hide Agrees, Held, Numbered, Dialled, Quiet;
  }

  lemma PurgeKeeps(r: Runtime, d: DeviceId)
    requires Sound(r, 0)
    ensures Sound(Purge(r, d), 0)
  {
    hide Agrees, Held, Numbered, Dialled, Quiet;
    var s := Purge(r, d);
    AgreesPurge(r.sessions, r.sched.peers, d);
    HeldFewer(r.sessions, s.sessions, r.tasks.sessions, r.nextSession);
    QuietFewer(r.sched.peers, r.dials, d);
    FewerKeys(r.sessions, s.sessions);
    FewerKeys(r.pending, s.pending);
    NumberedFewer(r.pending, s.pending, r.tasks.pairings, r.nextPairing);
    FewerKeys(r.sched.peers, s.sched.peers);
  }

  lemma DisconnectKeeps(r: Runtime, sid: SessionId, now: Instant)
    requires Sound(r, 0)
    ensures Sound(Disconnect(r, sid, now), 0)
  {
    hide Agrees, Held, Numbered, Dialled, Quiet, Bounded, RemoveSession;
    if sid in r.sessions {
      var rec := r.sessions[sid];
      var p := PeerOf(r, rec.device).Suspend().Lose(now, 0);
      var s := CancelDial(r, rec.device, Refused(ConnectionFailed));
      CancelDialKeeps(r, rec.device, Refused(ConnectionFailed), 0);
      RemoveSessionKeeps(s, sid, p, 0);
      AnswerCloseKeeps(RemoveSession(s, sid, p), [], Refused(Internal), rec.conn, 0);
    }
  }

  // ----- results of tasks -----

  /** An accept worker that finished is spare until it is started again. */
  lemma SpareKeeps(r: Runtime, s: Runtime)
    requires s == r.(tasks := r.tasks.(accept := s.tasks.accept)) && r.tasks.accept == s.tasks.accept + 1
    ensures Sound(r, 0) <==> Sound(s, 1)
  {
  }

  lemma IncomingKeeps(r: Runtime, store: Store, result: Result<Candidate, Code>, env: Env)
    requires Sound(r, 0) && r.tasks.accept > 0
    ensures Sound(IncomingDone(r, store, result, env), 0)
  {
    hide Sound, RegisterSession, RegisterPending;
    var r1 := r.(tasks := r.tasks.(accept := r.tasks.accept - 1));
    SpareKeeps(r, r1);
    var r2 := r1;
    if result.Ok? {
      RegisterSessionKeeps(r1, store, result.value, Inbound, env, 1);
      RegisterPendingKeeps(r1, store, result.value, Inbound, 1);
      r2 := if result.value.Authorized? then RegisterSession(r1, store, result.value, Inbound, env).0
            else RegisterPending(r1, store, result.value, Inbound).0;
    }
    SpareKeeps(r2.(tasks := r2.tasks.(accept := r2.tasks.accept + 1)), r2);
  }

  lemma TakeDialKeeps(r: Runtime, d: DeviceId)
    requires Sound(r, 0) && d in r.dials
    ensures Sound(TakeDial(r, d, r.dials[d].token), 0)
  {
  }

  lemma SettleKeeps(r: Runtime, store: Store, d: DeviceId, pairing: bool, result: Result<Candidate, Code>, env: Env)
    requires Sound(r, 0)
    ensures Sound(SettleDial(r, store, d, pairing, result, env).0, 0)
  {
    hide Agrees, Held, Numbered, Dialled, Quiet, Bounded, RegisterSession, RegisterPending;
    if result.Ok? {
      RegisterSessionKeeps(r, store, result.value, Outbound, env, 0);
      RegisterPendingKeeps(r, store, result.value, Outbound, 0);
      AnswerCloseKeeps(r, [], Refused(Internal), result.value.conn, 0);
    }
  }

  lemma SeatLeavesAwake(r: Runtime, c: Candidate, origin: Origin, env: Env, d: DeviceId)
    requires !Resting(r, d) && c.device in r.sched.peers
    ensures !Resting(Seat(r, c, origin, env).0, d)
  {
    hide Existing, Judge, AddSession, Displace, Added, Install;
    var v := Judge(r, c, origin);
    if v.Admit? {
      var base := Displace(r, c.device, v.existing, env);
      AddedShape(r, c, origin, v.existing, env);
      AddedAwake(r, AddSession(base, c, origin, env.now), SessionRecord(c.device, c.conn, origin, c.generation), v.existing, d);
      InstallIsAdd(base, c, origin, env);
    }
  }

  /** Registering something never suspends a peer. */
  lemma RegisterLeavesAwake(r: Runtime, store: Store, c: Candidate, origin: Origin, env: Env, d: DeviceId)
    requires !Resting(r, d)
    ensures !Resting(RegisterSession(r, store, c, origin, env).0, d)
  {
    hide Seat, Canonical;
    if Screen(r, store, c).None? {
      SeatLeavesAwake(r.(sched := r.sched.Insert(c.device, env.now)), c, origin, env, d);
    }
  }

  lemma AddedAwake(r: Runtime, s: Runtime, rec: SessionRecord, existing: Option<SessionId>, d: DeviceId)
    requires Added(r, s, rec, existing) && !Resting(r, d)
    ensures !Resting(s, d)
  {
  }

  lemma SettleLeavesAwake(r: Runtime, store: Store, d: DeviceId, pairing: bool, result: Result<Candidate, Code>, env: Env)
    requires !Resting(r, d)
    ensures !Resting(SettleDial(r, store, d, pairing, result, env).0, d)
  {
    hide RegisterSession;
    if result.Ok? {
      RegisterLeavesAwake(r, store, result.value, Outbound, env, d);
    }
  }

  lemma DialDoneKeeps(r: Runtime, store: Store, d: DeviceId, token: nat, result: Result<Candidate, Code>, env: Env)
    requires Sound(r, 0) && (d, token) in r.tasks.dials
    ensures d in r.dials && r.dials[d].token == token
    ensures Sound(DialDone(r, store, d, token, result, env), 0)
  {
    var rec := r.dials[d];
    NotDueWhenQuiet(r, d, 0);
    hide Agrees, Held, Numbered, Dialled, Quiet, Bounded, SettleDial, TakeDial, TellWaiters;
    TakeDialKeeps(r, d);
    var r2 := TakeDial(r, d, token);
    TakenShape(r, d, token);
    if result.Ok? {
      AnswerCloseKeeps(r2, [], Refused(Internal), result.value.conn, 0);
    }
    if !rec.cancelled {
      var (r3, answer) := SettleDial(r2, store, d, rec.pairing, result, env);
      SettleKeeps(r2, store, d, rec.pairing, result, env);
      if !rec.pairing {
        SettleLeavesAwake(r2, store, d, rec.pairing, result, env);
      }
      TellWaitersKeeps(r3, d, rec, answer, env);
    }
  }

  lemma TellWaitersKeeps(r: Runtime, d: DeviceId, rec: DialRecord, answer: Answer, env: Env)
    requires Sound(r, 0) && (rec.pairing || !Resting(r, d))
    ensures Sound(TellWaiters(r, d, rec, answer, env), 0)
  {
    hide Agrees, Held, Numbered, Dialled, Quiet, Bounded, MarkFailed;
    AnswerCloseKeeps(r, rec.replies, answer, 0, 0);
    if !rec.pairing {
      if Canonical(r, d).Some? {
        AnswerCloseKeeps(r, rec.replies, ToSession(d, Canonical(r, d).value), 0, 0);
      } else if answer.Refused? {
        MarkFailedKeeps(r, d, answer.code, env, 0);
        AnswerCloseKeeps(MarkFailed(r, d, answer.code, env), rec.replies, answer, 0, 0);
      }
    }
  }

  lemma TakenShape(r: Runtime, d: DeviceId, token: nat)
    ensures var s := TakeDial(r, d, token);
            s.sched == r.sched && s.sessions == r.sessions && s.closed == r.closed && s.answers == r.answers
            && s.dials == r.dials - {d} && s.config == r.config && s.nextSession == r.nextSession
  {
  }

  lemma PairingDoneKeeps(r: Runtime, store: Store, pid: PairingId, outcome: Option<Candidate>, env: Env)
    requires Sound(r, 0) && pid in r.tasks.pairings
    ensures Sound(PairingDone(r, store, pid, outcome, env), 0)
  {
    hide Agrees, Held, Numbered, Dialled, Quiet, RegisterSession;
    var r1 := r.(tasks := r.tasks.(pairings := r.tasks.pairings - {pid}), pending := r.pending - {pid});
    RemovedKey(r.tasks.pairings, pid);
    RemovedKey(r.pending, pid);
    NumberedTake(r.pending, r.tasks.pairings, r.nextPairing, pid);
    assert Sound(r1, 0);
    AnswerCloseKeeps(r1, [], Refused(Internal), r.tasks.pairings[pid].conn, 0);
    if outcome.Some? {
      AnswerCloseKeeps(r1, [], Refused(Internal), outcome.value.conn, 0);
      if pid in r.pending {
        RegisterSessionKeeps(r1, store, outcome.value, r.pending[pid].origin, env, 0);
      }
    }
  }

  lemma SessionTaskDoneKeeps(r: Runtime, sid: SessionId, conn: ConnId)
    requires Sound(r, 0) && sid in r.tasks.sessions && sid !in r.sessions
    ensures Sound(EndSessionTask(r, sid, conn), 0)
  {
  }

  lemma HolderMatches(r: Runtime, sid: SessionId)
    requires Sound(r, 0) && sid in r.sessions
    ensures sid in r.tasks.sessions && r.sessions[sid].device == r.tasks.sessions[sid].device
  {
    hide Agrees, Numbered, Dialled, Quiet, Bounded;
  }

  lemma SessionDoneKeeps(r: Runtime, sid: SessionId, failure: Failure, env: Env)
    requires Sound(r, 0) && sid in r.tasks.sessions
    ensures Sound(SessionDone(r, sid, failure, env), 0)
  {
    hide Sound, EndSessionTask, RemoveSession;
    var holder := r.tasks.sessions[sid];
    if sid in r.sessions {
      HolderMatches(r, sid);
      NotDueWhenQuiet(r, holder.device, 0);
      var lost := PeerOf(r, holder.device).Lose(env.now, env.sample);
      var p := if failure != Network && !lost.suspended then lost.Fail(failure, env.now, 0) else lost;
      RemoveSessionKeeps(r, sid, p, 0);
      RemovedIsGone(r, sid, p);
      SessionTaskDoneKeeps(RemoveSession(r, sid, p), sid, holder.conn);
    } else {
      SessionTaskDoneKeeps(r, sid, holder.conn);
    }
  }

  lemma RemovedIsGone(r: Runtime, sid: SessionId, p: Peer)
    requires sid in r.sessions
    ensures sid !in RemoveSession(r, sid, p).sessions && RemoveSession(r, sid, p).tasks == r.tasks
  {
  }
}
