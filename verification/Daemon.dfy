/** The supervisor as rift-daemon keeps it: one object whose methods update its registries in
    place. Each method is proved to be the step the model takes, so everything proved about runs
    of the model holds of the object. */
module Daemons {
  import opened Common
  import opened Connectivity
  import opened TrustJournal
  import opened Supervisor
  import opened Registry
  import opened Paging
  import opened TrustStores
  import opened DialConservation
  import opened SupervisorRuns

  /** With the registries in agreement a peer has one session, so any search for it finds that one. */
  lemma OneSession(r: Runtime, d: DeviceId, sid: SessionId)
    requires Agrees(r.sessions, r.sched.peers) && SessionWith(r, d, sid)
    ensures Existing(r, d) == Some(sid)
    ensures Canonical(r, d) == if r.sessions[sid].conn in r.closed then None else Some(sid)
  {
    if r.sessions[sid].conn !in r.closed {
      assert OpenSession(r, d, sid);
    }
  }

  lemma NoSession(r: Runtime, d: DeviceId)
    requires forall sid | sid in r.sessions :: r.sessions[sid].device != d
    ensures Existing(r, d).None? && Canonical(r, d).None?
  {
  }

  /** The open session depends on the sessions and the closed connections alone. */
  lemma SameCanonical(r: Runtime, s: Runtime, d: DeviceId)
    requires Agrees(r.sessions, r.sched.peers) && s.sessions == r.sessions && s.closed == r.closed
    ensures Canonical(s, d) == Canonical(r, d)
  {
    if Canonical(s, d).Some? {
      var sid := Canonical(s, d).value;
      assert OpenSession(s, d, sid) && SessionWith(r, d, sid);
      OneSession(r, d, sid);
    } else if Canonical(r, d).Some? {
      assert OpenSession(s, d, Canonical(r, d).value);
    }
  }

  lemma AgreesWhenSound(r: Runtime, spare: nat)
    requires Sound(r, spare)
    ensures Agrees(r.sessions, r.sched.peers)
  {
  }

  lemma InsertAgrees(r: Runtime, d: DeviceId, now: Instant)
    requires Agrees(r.sessions, r.sched.peers)
    ensures Agrees(r.sessions, r.sched.Insert(d, now).peers)
  {
  }

  lemma CancelKeepsRest(r: Runtime, d: DeviceId, answer: Answer)
    ensures var s := CancelDial(r, d, answer); s == r.(dials := s.dials, answers := s.answers)
  {
  }

  lemma RemoveKeepsTasks(r: Runtime, sid: SessionId)
    ensures sid in r.sessions ==> forall p :: RemoveSession(r, sid, p).tasks == r.tasks
  {
  }

  lemma NoWaitersYet(dials: Dials)
    ensures Waiters(dials, 0, 0) == [] && ToAll([], Refused(ShuttingDown)) == []
  {
  }

  lemma {:induction false} NoneWaiting(dials: Dials, lo: nat, hi: nat)
    requires lo <= hi <= ID_LIMIT && forall d | d in dials :: !(lo <= d < hi)
    ensures Waiters(dials, lo, hi) == []
    decreases hi - lo
  {
    if lo < hi {
      NoneWaiting(dials, lo, hi - 1);
    }
  }

  /** The next record in order adds its own waiters and no others. */
  lemma WaitersUpTo(dials: Dials, lo: nat, d: DeviceId, answer: Answer)
    requires lo <= d && d in dials && forall e | e in dials && lo <= e :: d <= e
    ensures ToAll(Waiters(dials, 0, Past(d)), answer) == ToAll(Waiters(dials, 0, lo), answer) + ToAll(dials[d].replies, answer)
  {
    hide Waiters, ToAll;
    WaitersSplit(dials, 0, lo, Past(d));
    WaitersSplit(dials, lo, d, Past(d));
    NoneWaiting(dials, lo, d);
    WaitersOfOne(dials, d);
    assert Waiters(dials, lo, Past(d)) == dials[d].replies;
    ToAllOfBoth(Waiters(dials, 0, lo), dials[d].replies, answer);
  }

  lemma ToAllOfBoth(a: seq<ReplyId>, b: seq<ReplyId>, answer: Answer)
    ensures ToAll(a + b, answer) == ToAll(a, answer) + ToAll(b, answer)
  {
  }

  lemma NoMoreWaiters(dials: Dials, lo: nat)
    requires lo <= ID_LIMIT && forall d | d in dials :: d < lo
    ensures Waiters(dials, 0, ID_LIMIT) == Waiters(dials, 0, lo)
  {
    WaitersSplit(dials, 0, lo, ID_LIMIT);
    NoneWaiting(dials, lo, ID_LIMIT);
  }

  lemma InvIsSound(w: World)
    requires Inv(w)
    ensures Sound(w.rt, 0) && Agrees(w.rt.sessions, w.rt.sched.peers)
  {
  }

  /** The same event, but for what the journal's I/O did. */
  predicate SameButIo(e: Event, done: Event) {
    match e
    case RevokePeer(d, _) => done.RevokePeer? && done.d == d
    case ForgetPeer(d, _) => done.ForgetPeer? && done.d == d
    case PairingCommits(peer, generation, _) => done.PairingCommits? && done.peer == peer && done.generation == generation
    case _ => done == e
  }

  /** A mutation whose append to the journal failed. */
  predicate IoLost(e: Event) {
    (e.RevokePeer? || e.ForgetPeer? || e.PairingCommits?) && e.io.Lost?
  }

  class Daemon {
    const config: Config
    const connectivity: Scheduler
    var running: bool
    var sessions: map<SessionId, SessionRecord>
    var outbound: map<DeviceId, DialRecord>
    var pending: map<PairingId, PendingRecord>
    var nextSession: nat
    var nextDial: nat
    var nextPairing: nat
    var tasks: Tasks
    var closed: set<ConnId>
    var answers: seq<(ReplyId, Answer)>

    ghost function View(): Runtime
      reads this, connectivity
    {
      Runtime(config, running, sessions, outbound, pending, connectivity.View(), nextSession, nextDial, nextPairing,
              tasks, closed, answers)
    }

    /** A daemon that has started its accept workers and done nothing else. */
    constructor (config: Config, connectivity: Scheduler)
      ensures this.config == config && this.connectivity == connectivity
      ensures View() == Runtime(config, true, map[], map[], map[], connectivity.View(), 1, 1, 1,
                                Tasks(config.workers, 0, {}, map[], map[]), {}, [])
    {
      this.config, this.connectivity, running := config, connectivity, true;
      sessions, outbound, pending := map[], map[], map[];
      nextSession, nextDial, nextPairing := 1, 1, 1;
      tasks, closed, answers := Tasks(config.workers, 0, {}, map[], map[]), {}, [];
    }

    ghost predicate Agreed()
      reads this, connectivity
    {
      Agrees(sessions, connectivity.peers)
    }

    // ----- searches -----

    method RegisteredSession(d: DeviceId) returns (found: Option<SessionId>)
      requires Agreed()
      ensures found == Existing(View(), d)
    {
      var left := sessions.Keys;
      while left != {}
        invariant left <= sessions.Keys && forall sid | sid in sessions && sid !in left :: sessions[sid].device != d
        decreases |left|
      {
        var sid :| sid in left;
        left := left - {sid};
        if sessions[sid].device == d {
          OneSession(View(), d, sid);
          return Some(sid);
        }
      }
      NoSession(View(), d);
      return None;
    }

    method CanonicalSession(d: DeviceId) returns (found: Option<SessionId>)
      requires Agreed()
      ensures found == Canonical(View(), d)
    {
      var left := sessions.Keys;
      while left != {}
        invariant left <= sessions.Keys
        invariant forall sid | sid in sessions && sid !in left :: !OpenSession(View(), d, sid)
        decreases |left|
      {
        var sid :| sid in left;
        left := left - {sid};
        if sessions[sid].device == d && sessions[sid].conn !in closed {
          OneSession(View(), d, sid);
          return Some(sid);
        }
      }
      return None;
    }

    // ----- scheduler entries -----

    method ChangePeer(d: DeviceId, p: Peer)
      modifies connectivity
      ensures View() == SetPeer(old(View()), d, p)
    {
      connectivity.peers := connectivity.peers[d := p];
    }

    method ConnectivityFailed(d: DeviceId, code: Code, env: Env)
      modifies connectivity
      ensures View() == MarkFailed(old(View()), d, code, env)
    {
      if d in connectivity.peers {
        ChangePeer(d, connectivity.peers[d].Fail(Category(code), env.now, env.sample));
      }
    }

    method Connecting(d: DeviceId)
      modifies connectivity
      ensures View() == MarkDialling(old(View()), d)
    {
      if d in connectivity.peers {
        ChangePeer(d, connectivity.peers[d].Dialling());
      }
    }

    // ----- replies -----

    method Send(replies: seq<ReplyId>, answer: Answer)
      modifies this`answers
      ensures View() == AnswerAll(old(View()), replies, answer)
    {
      var i := 0;
      while i < |replies|
        invariant i <= |replies| && answers == old(answers) + ToAll(replies[..i], answer)
      {
        assert replies[..i + 1] == replies[..i] + [replies[i]];
        answers := answers + [(replies[i], answer)];
        i := i + 1;
      }
      assert replies[..i] == replies;
    }

    method CancelOutbound(d: DeviceId, answer: Answer)
      modifies this`outbound, this`answers
      ensures View() == CancelDial(old(View()), d, answer)
    {
      if d in outbound {
        var replies := outbound[d].replies;
        outbound := outbound[d := outbound[d].(cancelled := true, replies := [])];
        Send(replies, answer);
      }
    }

    // ----- dialling -----

    method StartDialTask(d: DeviceId, pairing: bool, env: Env) returns (r: Result<Option<SessionId>, Code>)
      modifies this, connectivity
      ensures (View(), r) == StartDial(old(View()), d, pairing, env)
    {
      if d in outbound {
        if pairing || Busy(outbound[d]) {
          return Err(CapacityExceeded);
        }
        Connecting(d);
        return Ok(None);
      }
      if |outbound| >= config.maxDials || tasks.Owned() >= MAX_OWNED_TASKS {
        return Err(CapacityExceeded);
      }
      if pairing {
        var paired := PairingWith(d);
        if !env.slotFree || paired {
          return Err(CapacityExceeded);
        }
      }
      if env.noRoute.Some? {
        return Err(env.noRoute.value);
      }
      if nextDial >= U64_MAX {
        return Err(Internal);
      }
      SpawnDial(d, pairing);
      Connecting(d);
      return Ok(None);
    }

    method SpawnDial(d: DeviceId, pairing: bool)
      modifies this`nextDial, this`outbound, this`tasks
      ensures View() == AddDial(old(View()), d, pairing)
    {
      var token := nextDial;
      nextDial := nextDial + 1;
      outbound := outbound[d := DialRecord(token, pairing, [], false)];
      tasks := tasks.(dials := tasks.dials + {(d, token)});
    }

    method PairingWith(d: DeviceId) returns (found: bool)
      ensures found <==> exists pid | pid in pending :: pending[pid].device == d
    {
      var left := pending.Keys;
      while left != {}
        invariant left <= pending.Keys && forall pid | pid in pending && pid !in left :: pending[pid].device != d
        decreases |left|
      {
        var pid :| pid in left;
        left := left - {pid};
        if pending[pid].device == d {
          return true;
        }
      }
      return false;
    }

    method StartOutbound(store: Store, d: DeviceId, pairing: bool, manual: bool, env: Env)
      returns (r: Result<Option<SessionId>, Code>)
      requires Agreed()
      modifies this, connectivity
      ensures (View(), r) == Supervisor.StartOutbound(old(View()), store, d, pairing, manual, env)
    {
      if !running {
        return Err(ShuttingDown);
      }
      if d == config.self {
        return Err(InvalidRequest);
      }
      if pairing && store.IsTrusted(d) {
        return Err(PeerAlreadyTrusted);
      }
      if (pairing && d in store.decisions) || (!pairing && !store.IsTrusted(d)) {
        return Err(PeerNotTrusted);
      }
      var open := CanonicalSession(d);
      if d in outbound && outbound[d].cancelled && open.None? {
        return Err(CapacityExceeded);
      }
      if pairing {
        r := StartDialTask(d, true, env);
        return;
      }
      var room := connectivity.Insert(d, env.now);
      if !room {
        return Err(CapacityExceeded);
      }
      ghost var before, r1 := old(View()), View();
      SameCanonical(before, r1, d);
      SameCanonical(before, SetPeer(r1, d, r1.sched.peers[d].Resume(env.now)), d);
      r := JoinOrDial(d, manual, open, env);
    }

    method JoinOrDial(d: DeviceId, manual: bool, open: Option<SessionId>, env: Env) returns (r: Result<Option<SessionId>, Code>)
      requires d in connectivity.peers && open == Canonical(View(), d)
      modifies this, connectivity
      ensures var r1 := old(View());
              (View(), r) ==
              if open.None? && d in r1.dials && Busy(r1.dials[d]) then (r1, Err(CapacityExceeded)) else
              var r2 := if manual then SetPeer(r1, d, r1.sched.peers[d].Resume(env.now)) else r1;
              if open.Some? then (r2, Ok(open)) else StartDial(r2, d, false, env)
    {
      if open.None? && d in outbound && Busy(outbound[d]) {
        return Err(CapacityExceeded);
      }
      if manual {
        ChangePeer(d, connectivity.peers[d].Resume(env.now));
      }
      if open.Some? {
        return Ok(open);
      }
      r := StartDialTask(d, false, env);
    }

    /** Starts or joins a dial on a caller's behalf, or for the scheduler when there is no caller. */
    method SpawnOutbound(store: Store, d: DeviceId, pairing: bool, reply: Option<ReplyId>, env: Env)
      requires Sound(View(), 0) && (pairing || reply.Some? || !Resting(View(), d))
      modifies this, connectivity
      ensures View() == Supervisor.SpawnOutbound(old(View()), store, d, pairing, reply, env) && Sound(View(), 0)
    {
      hide Sound, Supervisor.StartOutbound, Canonical;
      AgreesWhenSound(View(), 0);
      StartOutboundKeeps(View(), store, d, pairing, reply.Some?, env);
      SpawnOutboundKeeps(View(), store, d, pairing, reply, env);
      var result := StartOutbound(store, d, pairing, reply.Some?, env);
      AgreesWhenSound(View(), 0);
      match result {
        case Ok(Some(sid)) => Send(AsReplies(reply), ToSession(d, sid));
        case Ok(None) => AwaitDial(d, AsReplies(reply));
        case Err(code) =>
          var open := CanonicalSession(d);
          if !pairing && open.None? && d !in outbound {
            ConnectivityFailed(d, code, env);
          }
          Send(AsReplies(reply), Refused(code));
      }
    }

    method AwaitDial(d: DeviceId, replies: seq<ReplyId>)
      modifies this`outbound, this`answers
      ensures View() == if d in old(outbound) then AddWaiters(old(View()), d, replies)
                        else AnswerAll(old(View()), replies, Refused(Internal))
    {
      if d in outbound {
        outbound := outbound[d := outbound[d].(replies := outbound[d].replies + replies)];
      } else {
        Send(replies, Refused(Internal));
      }
    }

    /** The timer: dials the peer that is due, if a dial slot is free. */
    method Timer(store: Store, env: Env)
      requires Sound(View(), 0)
      modifies this, connectivity
      ensures View() == Fire(old(View()), store, env) && Sound(View(), 0)
    {
      hide Sound, Supervisor.SpawnOutbound;
      FireKeeps(View(), store, env);
      if |outbound| < config.maxDials {
        TakeDueKeeps(View(), env.now);
        var due := connectivity.TakeDue(env.now);
        if due.Some? {
          SpawnOutbound(store, due.value, false, None, env);
        }
      }
    }

    // ----- sessions -----

    method RegisterSession(store: Store, c: Candidate, origin: Origin, env: Env) returns (r: Result<SessionId, Code>)
      requires Agreed()
      modifies this, connectivity
      ensures (View(), r) == Supervisor.RegisterSession(old(View()), store, c, origin, env)
    {
      hide Seat, Canonical;
      if !store.IsTrusted(c.device) || store.Generation(c.device) != c.generation {
        closed := closed + {c.conn};
        return Err(PeerNotTrusted);
      }
      if c.conn in closed {
        var open := CanonicalSession(c.device);
        closed := closed + {c.conn};
        return if open.Some? then Ok(open.value) else Err(ConnectionFailed);
      }
      InsertAgrees(View(), c.device, env.now);
      var room := connectivity.Insert(c.device, env.now);
      if !room {
        closed := closed + {c.conn};
        return Err(CapacityExceeded);
      }
      r := SeatSession(c, origin, env);
    }

    method SeatSession(c: Candidate, origin: Origin, env: Env) returns (r: Result<SessionId, Code>)
      requires Agreed() && c.device in connectivity.peers
      modifies this, connectivity
      ensures (View(), r) == Seat(old(View()), c, origin, env)
    {
      hide Existing, Displace, Install;
      var d := c.device;
      var existing := RegisteredSession(d);
      ExistingIsRegistered(View(), d);
      if existing.Some? && sessions[existing.value].conn !in closed
         && !Replaces(origin, sessions[existing.value].origin, config.self, d) {
        closed := closed + {c.conn};
        return Ok(existing.value);
      }
      if existing.None? && |sessions| >= config.maxSessions {
        closed := closed + {c.conn};
        return Err(CapacityExceeded);
      }
      if tasks.Owned() >= MAX_OWNED_TASKS - 1 {
        closed := closed + {c.conn};
        return Err(CapacityExceeded);
      }
      if nextSession >= U64_MAX {
        closed := closed + {c.conn};
        return Err(Internal);
      }
      var sid := nextSession;
      DisplaceSession(d, existing, env);
      InstallSession(c, origin, env);
      return Ok(sid);
    }

    method DisplaceSession(d: DeviceId, existing: Option<SessionId>, env: Env)
      requires existing.Some? ==> existing.value in sessions
      modifies this`sessions, this`closed, connectivity
      ensures View() == Displace(old(View()), d, existing, env)
    {
      if existing.Some? {
        var conn := sessions[existing.value].conn;
        if conn in closed && d in connectivity.peers {
          ChangePeer(d, connectivity.peers[d].Lose(env.now, env.sample));
        }
        sessions := sessions - {existing.value};
        closed := closed + {conn};
      }
    }

    method InstallSession(c: Candidate, origin: Origin, env: Env)
      modifies this, connectivity
      ensures View() == Install(old(View()), c, origin, env)
    {
      hide AddSession, CancelDial;
      var sid, d := nextSession, c.device;
      SpawnSession(c, origin, env.now);
      if origin == Inbound && config.self > d {
        CancelOutbound(d, ToSession(d, sid));
      }
    }

    method SpawnSession(c: Candidate, origin: Origin, now: Instant)
      modifies this`nextSession, this`sessions, this`tasks, connectivity
      ensures View() == AddSession(old(View()), c, origin, now)
    {
      var sid, d := nextSession, c.device;
      nextSession := nextSession + 1;
      sessions := sessions[sid := SessionRecord(d, c.conn, origin, c.generation)];
      tasks := tasks.(sessions := tasks.sessions[sid := Holder(d, c.conn)]);
      if d in connectivity.peers {
        ChangePeer(d, connectivity.peers[d].Connect(sid, now));
      }
    }

    method RegisterPending(store: Store, c: Candidate, origin: Origin) returns (r: Result<PairingId, Code>)
      modifies this
      ensures (View(), r) == Supervisor.RegisterPending(old(View()), store, c, origin)
    {
      if c.device in store.decisions || store.Generation(c.device) != c.generation {
        closed := closed + {c.conn};
        return Err(PeerNotTrusted);
      }
      if |pending| >= config.maxPending || tasks.Owned() >= MAX_OWNED_TASKS - 1 {
        closed := closed + {c.conn};
        return Err(CapacityExceeded);
      }
      if nextPairing >= U64_MAX {
        closed := closed + {c.conn};
        return Err(Internal);
      }
      var pid := nextPairing;
      nextPairing := nextPairing + 1;
      pending := pending[pid := PendingRecord(c.device, c.conn, origin, None)];
      tasks := tasks.(pairings := tasks.pairings[pid := Holder(c.device, c.conn)]);
      return Ok(pid);
    }

    // ----- removal -----

    /** Revocation or forgetting removes everything the peer had. */
    method InvalidatePeer(d: DeviceId)
      modifies this, connectivity
      ensures View() == Invalidate(old(View()), d)
    {
      hide CancelDial;
      CancelOutbound(d, Refused(PeerNotTrusted));
      connectivity.peers := connectivity.peers - {d};
      RemovePairings(d);
      RemoveSessions(d);
    }

    /** Withdraws trust: only a mutation that reached the journal removes what the peer had. */
    method WithdrawTrust(store: TrustStore, m: Mutation) returns (r: Result<(), TrustError>, ghost io: Persist)
      requires store.Valid() && (m.Revoke? || m.Forget?)
      modifies this, connectivity, store
      ensures store.Valid() && store.Suffered(io)
      ensures World(View(), store.View()) == Withdraw(store.codec, old(World(View(), store.View())), m, io)
    {
      hide TrustJournal.Commit, Invalidate;
      r, io := store.Commit(m, None);
      if r.Ok? {
        InvalidatePeer(Target(m));
      }
    }

    method RemovePairings(d: DeviceId)
      modifies this`pending, this`closed
      ensures pending == map pid | pid in old(pending) && old(pending)[pid].device != d :: old(pending)[pid]
      ensures closed == old(closed) + (set pid | pid in old(pending) && old(pending)[pid].device == d :: old(pending)[pid].conn)
    {
      var left := pending.Keys;
      while left != {}
        invariant left <= old(pending).Keys
        invariant pending == map pid | pid in old(pending) && (pid in left || old(pending)[pid].device != d) :: old(pending)[pid]
        invariant closed == old(closed)
                          + (set pid | pid in old(pending) && pid !in left && old(pending)[pid].device == d :: old(pending)[pid].conn)
        decreases |left|
      {
        var pid :| pid in left;
        left := left - {pid};
        if pending[pid].device == d {
          closed := closed + {pending[pid].conn};
          pending := pending - {pid};
        }
      }
    }

    method RemoveSessions(d: DeviceId)
      modifies this`sessions, this`closed
      ensures sessions == map sid | sid in old(sessions) && old(sessions)[sid].device != d :: old(sessions)[sid]
      ensures closed == old(closed) + (set sid | sid in old(sessions) && old(sessions)[sid].device == d :: old(sessions)[sid].conn)
    {
      var left := sessions.Keys;
      while left != {}
        invariant left <= old(sessions).Keys
        invariant sessions == map sid | sid in old(sessions) && (sid in left || old(sessions)[sid].device != d) :: old(sessions)[sid]
        invariant closed == old(closed)
                          + (set sid | sid in old(sessions) && sid !in left && old(sessions)[sid].device == d :: old(sessions)[sid].conn)
        decreases |left|
      {
        var sid :| sid in left;
        left := left - {sid};
        if sessions[sid].device == d {
          closed := closed + {sessions[sid].conn};
          sessions := sessions - {sid};
        }
      }
    }

    method DisconnectSession(sid: SessionId, now: Instant)
      modifies this, connectivity
      ensures View() == Disconnect(old(View()), sid, now)
    {
      if sid in sessions {
        hide CancelDial;
        CancelKeepsRest(View(), sessions[sid].device, Refused(ConnectionFailed));
        var rec := sessions[sid];
        CancelOutbound(rec.device, Refused(ConnectionFailed));
        sessions := sessions - {sid};
        if rec.device in connectivity.peers {
          ChangePeer(rec.device, connectivity.peers[rec.device].Suspend().Lose(now, 0));
        }
        closed := closed + {rec.conn};
      }
    }

    method RememberPeer(d: DeviceId, now: Instant)
      modifies connectivity
      ensures View() == Remember(old(View()), d, now)
    {
      if d in connectivity.peers && connectivity.peers[d].state == Unresolved && !connectivity.peers[d].suspended {
        ChangePeer(d, connectivity.peers[d].Resume(now));
      }
    }

    method ConfirmPairing(pid: PairingId, accepted: bool, delivered: bool)
      modifies this
      ensures View() == Confirm(old(View()), pid, accepted, delivered)
    {
      var resolving := CountResolving();
      if accepted && |connectivity.peers| + resolving >= MAX_MANAGED_PEERS {
        return;
      }
      if pid !in pending || pending[pid].resolving.Some? {
        return;
      }
      pending := if delivered then pending[pid := pending[pid].(resolving := Some(accepted))] else pending - {pid};
    }

    method CountResolving() returns (count: nat)
      ensures count == |Resolving(View())|
    {
      var left := pending.Keys;
      ghost var found: set<PairingId> := {};
      count := 0;
      while left != {}
        invariant left <= pending.Keys && count == |found|
        invariant found == set pid | pid in pending && pid !in left && pending[pid].resolving == Some(true)
        decreases |left|
      {
        var pid :| pid in left;
        left := left - {pid};
        if pending[pid].resolving == Some(true) {
          count := count + 1;
          found := found + {pid};
        }
      }
      assert found == Resolving(View());
    }

    // ----- results of tasks -----

    method HandleIncoming(store: Store, result: Result<Candidate, Code>, env: Env)
      requires Agreed()
      modifies this, connectivity
      ensures View() == IncomingDone(old(View()), store, result, env)
    {
      hide Supervisor.RegisterSession, Supervisor.RegisterPending;
      tasks := tasks.(accept := if tasks.accept == 0 then 0 else tasks.accept - 1);
      if result.Ok? {
        if result.value.Authorized? {
          var sid := RegisterSession(store, result.value, Inbound, env);
        } else {
          var pid := RegisterPending(store, result.value, Inbound);
        }
      }
      tasks := tasks.(accept := tasks.accept + 1);
    }

    method Drop(result: Result<Candidate, Code>)
      modifies this`closed
      ensures View() == DropResult(old(View()), result)
    {
      if result.Ok? {
        closed := closed + {result.value.conn};
      }
    }

    method Settle(store: Store, d: DeviceId, pairing: bool, result: Result<Candidate, Code>, env: Env) returns (answer: Answer)
      requires Agreed()
      modifies this, connectivity
      ensures (View(), answer) == SettleDial(old(View()), store, d, pairing, result, env)
    {
      hide Supervisor.RegisterSession, Supervisor.RegisterPending;
      if result.Err? {
        return Refused(result.error);
      }
      if result.value.Authorized? && !pairing {
        var sid := RegisterSession(store, result.value, Outbound, env);
        return if sid.Ok? then ToSession(d, sid.value) else Refused(sid.error);
      }
      if result.value.Pairable? && pairing {
        var pid := RegisterPending(store, result.value, Outbound);
        return if pid.Ok? then ToPairing(pid.value) else Refused(pid.error);
      }
      closed := closed + {result.value.conn};
      return Refused(Internal);
    }

    method TellCallers(d: DeviceId, rec: DialRecord, answer: Answer, env: Env)
      requires Agreed()
      modifies this, connectivity
      ensures View() == TellWaiters(old(View()), d, rec, answer, env)
    {
      hide Canonical, MarkFailed;
      var told := answer;
      if !rec.pairing {
        var open := CanonicalSession(d);
        if open.Some? {
          told := ToSession(d, open.value);
        } else if answer.Refused? {
          ConnectivityFailed(d, answer.code, env);
        }
      }
      Send(rec.replies, told);
    }

    method HandleOutbound(store: Store, d: DeviceId, token: nat, result: Result<Candidate, Code>, env: Env)
      requires Sound(View(), 0) && (d, token) in tasks.dials
      modifies this, connectivity
      ensures View() == DialDone(old(View()), store, d, token, result, env) && Sound(View(), 0)
    {
      hide Sound, SettleDial, TellWaiters;
      DialDoneKeeps(View(), store, d, token, result, env);
      TakeDialKeeps(View(), d);
      var rec := outbound[d];
      ghost var taken := TakeDial(View(), d, token);
      tasks := tasks.(dials := tasks.dials - {(d, token)});
      outbound := outbound - {d};
      if rec.cancelled {
        Drop(result);
        return;
      }
      AgreesWhenSound(taken, 0);
      SettleKeeps(taken, store, d, rec.pairing, result, env);
      var answer := Settle(store, d, rec.pairing, result, env);
      AgreesWhenSound(View(), 0);
      TellCallers(d, rec, answer, env);
    }

    method FinishPairing(store: Store, pid: PairingId, outcome: Option<Candidate>, env: Env)
      requires Agreed() && pid in tasks.pairings
      modifies this, connectivity
      ensures View() == PairingDone(old(View()), store, pid, outcome, env)
    {
      hide Supervisor.RegisterSession;
      var holder, known := tasks.pairings[pid], pid in pending;
      var origin := if known then pending[pid].origin else Inbound;
      tasks := tasks.(pairings := tasks.pairings - {pid});
      pending := pending - {pid};
      if outcome.None? {
        closed := closed + {holder.conn};
      } else if known {
        var sid := RegisterSession(store, outcome.value, origin, env);
      } else {
        closed := closed + {outcome.value.conn};
      }
    }

    method SessionEnded(sid: SessionId, failure: Failure, env: Env)
      requires sid in tasks.sessions
      modifies this, connectivity
      ensures View() == SessionDone(old(View()), sid, failure, env)
    {
      hide RemoveSession, EndSessionTask;
      RemoveKeepsTasks(View(), sid);
      var holder := tasks.sessions[sid];
      if sid in sessions {
        var p := if holder.device in connectivity.peers then connectivity.peers[holder.device] else NewPeer(0);
        p := p.Lose(env.now, env.sample);
        TakeOut(sid, if failure != Network && !p.suspended then p.Fail(failure, env.now, 0) else p);
      }
      EndTask(sid, holder.conn);
    }

    method TakeOut(sid: SessionId, p: Peer)
      requires sid in sessions
      modifies this`sessions, connectivity
      ensures View() == RemoveSession(old(View()), sid, p)
    {
      var d := sessions[sid].device;
      sessions := sessions - {sid};
      if d in connectivity.peers {
        ChangePeer(d, p);
      }
    }

    method EndTask(sid: SessionId, conn: ConnId)
      modifies this`tasks, this`closed
      ensures View() == EndSessionTask(old(View()), sid, conn)
    {
      tasks := tasks.(sessions := tasks.sessions - {sid});
      closed := closed + {conn};
    }

    // ----- shutdown -----

    /** Cancels every dial, in identity order, and tells its callers. */
    method CancelAllOutbound()
      modifies this`outbound, this`answers
      ensures outbound == map d | d in old(outbound) :: old(outbound)[d].(cancelled := true, replies := [])
      ensures answers == old(answers) + ToAll(Waiters(old(outbound), 0, ID_LIMIT), Refused(ShuttingDown))
    {
      hide Waiters, From;
      ghost var dials := outbound;
      var lo := 0;
      NoWaitersYet(dials);
      var key := NextKey(outbound.Keys, lo);
      while key.Some?
        invariant lo <= ID_LIMIT && outbound.Keys == dials.Keys
        invariant forall d | d in dials ::
                    outbound[d] == if d < lo then dials[d].(cancelled := true, replies := []) else dials[d]
        invariant answers == old(answers) + ToAll(Waiters(dials, 0, lo), Refused(ShuttingDown))
        invariant key.Some? ==> key.value in outbound && lo <= key.value && forall d | d in outbound && lo <= d :: key.value <= d
        invariant key.None? ==> forall d | d in outbound :: d < lo
        decreases ID_LIMIT - lo
      {
        var d := key.value;
        WaitersUpTo(dials, lo, d, Refused(ShuttingDown));
        CancelOutbound(d, Refused(ShuttingDown));
        lo := Past(d);
        key := NextKey(outbound.Keys, lo);
      }
      NoMoreWaiters(dials, lo);
    }

    method ClosePairings()
      modifies this`pending, this`closed
      ensures pending == map[]
      ensures closed == old(closed) + set pid | pid in old(pending) :: old(pending)[pid].conn
    {
      var left := pending.Keys;
      while left != {}
        invariant left <= old(pending).Keys && pending == old(pending)
        invariant closed == old(closed) + set pid | pid in pending && pid !in left :: pending[pid].conn
        decreases |left|
      {
        var pid :| pid in left;
        left := left - {pid};
        closed := closed + {pending[pid].conn};
      }
      pending := map[];
    }

    method CloseSessions()
      modifies this`sessions, this`closed
      ensures sessions == map[]
      ensures closed == old(closed) + set sid | sid in old(sessions) :: old(sessions)[sid].conn
    {
      var left := sessions.Keys;
      while left != {}
        invariant left <= old(sessions).Keys && sessions == old(sessions)
        invariant closed == old(closed) + set sid | sid in sessions && sid !in left :: sessions[sid].conn
        decreases |left|
      {
        var sid :| sid in left;
        left := left - {sid};
        closed := closed + {sessions[sid].conn};
      }
      sessions := map[];
    }

    method ShutdownRuntime()
      modifies this, connectivity
      ensures View() == Shutdown(old(View()))
    {
      hide Waiters, ToAll;
      running := false;
      connectivity.peers := map[];
      CancelAllOutbound();
      ClosePairings();
      CloseSessions();
    }

    // ----- events -----

    /** Results of tasks, and what tasks and connections do by themselves. */
    method HandleTaskOutput(store: Store, e: Event, ghost c: Codec)
      requires Sound(View(), 0) && Agreed() && running
      requires e.Incoming? || e.DialEnded? || e.PairingEnded? || e.SessionEnded? || e.IpcConnected? || e.IpcEnded? || e.ConnectionLost?
      modifies this, connectivity
      ensures World(View(), store) == Next(c, World(old(View()), store), e)
    {
      hide Sound, Agrees, IncomingDone, DialDone, PairingDone, SessionDone;
      match e {
        case Incoming(result, env) =>
          if tasks.accept > 0 {
            HandleIncoming(store, result, env);
          }
        case DialEnded(d, token, result, env) =>
          if (d, token) in tasks.dials {
            HandleOutbound(store, d, token, result, env);
          }
        case PairingEnded(pid, outcome, env) =>
          if pid in tasks.pairings {
            FinishPairing(store, pid, outcome, env);
          }
        case SessionEnded(sid, failure, env) =>
          if sid in tasks.sessions {
            SessionEnded(sid, failure, env);
          }
        case IpcConnected =>
          if tasks.ipc < config.maxIpc && tasks.Owned() < MAX_OWNED_TASKS {
            tasks := tasks.(ipc := tasks.ipc + 1);
          }
        case IpcEnded =>
          if tasks.ipc > 0 {
            tasks := tasks.(ipc := tasks.ipc - 1);
          }
        case ConnectionLost(conn) => closed := closed + {conn};
      }
    }

    /** One turn of the event loop. What the journal's I/O did to a mutation is known only
        afterwards, so the event that happened is `e` with that filled in. */
    method Handle(store: TrustStore, e: Event) returns (ghost done: Event)
      requires store.Valid() && Inv(World(View(), store.View()))
      modifies this, connectivity, store
      ensures store.Valid() && Inv(World(View(), store.View())) && SameButIo(e, done)
      ensures store.writeFailed == (old(store.writeFailed) || IoLost(done))
      ensures World(View(), store.View()) == Next(store.codec, old(World(View(), store.View())), done)
    {
      hide Inv, Sound, Fire, Supervisor.SpawnOutbound, Remember, Invalidate, Disconnect, Confirm, IncomingDone, DialDone,
           PairingDone, SessionDone, Shutdown, TrustJournal.Commit;
      ghost var before := World(View(), store.View());
      InvIsSound(before);
      done := if e.RevokePeer? || e.ForgetPeer? || e.PairingCommits? then e.(io := Written) else e;
      if running {
        match e {
          case Timer(env) => Timer(store.View(), env);
          case Dial(d, pairing, reply, env) => SpawnOutbound(store.View(), d, pairing, Some(reply), env);
          case Hint(d, now) => RememberPeer(d, now);
          case RevokePeer(d, _) =>
            var r, io := WithdrawTrust(store, Revoke(d));
            done := RevokePeer(d, io);
          case ForgetPeer(d, _) =>
            var r, io := WithdrawTrust(store, Forget(d));
            done := ForgetPeer(d, io);
          case DisconnectSession(sid, now) => DisconnectSession(sid, now);
          case ConfirmPairing(pid, accepted, delivered) => ConfirmPairing(pid, accepted, delivered);
          case PairingCommits(peer, generation, _) =>
            var r, io := store.Commit(Trust(peer), Some((peer.deviceId, generation)));
            done := PairingCommits(peer, generation, io);
          case Stop => ShutdownRuntime();
          case _ => HandleTaskOutput(store.View(), e, store.codec);
        }
      }
      NextKeeps(store.codec, before, done);
    }

    /** The event loop: whatever arrives, the object and its store take exactly a run of the model. */
    method Drive(store: TrustStore, events: seq<Event>) returns (ghost done: seq<Event>)
      requires store.Valid() && Inv(World(View(), store.View()))
      modifies this, connectivity, store
      ensures store.Valid() && Inv(World(View(), store.View())) && |done| == |events|
      ensures forall i | 0 <= i < |done| :: SameButIo(events[i], done[i])
      ensures store.writeFailed == (old(store.writeFailed) || exists i | 0 <= i < |done| :: IoLost(done[i]))
      ensures World(View(), store.View()) == Run(store.codec, old(World(View(), store.View())), done)
    {
      hide Inv, Next, IoLost;
      done := [];
      var i := 0;
      while i < |events|
        invariant 0 <= i <= |events| && |done| == i && store.Valid() && Inv(World(View(), store.View()))
        invariant forall k | 0 <= k < i :: SameButIo(events[k], done[k])
        invariant store.writeFailed == (old(store.writeFailed) || exists k | 0 <= k < i :: IoLost(done[k]))
        invariant World(View(), store.View()) == Run(store.codec, old(World(View(), store.View())), done)
      {
        ghost var one := Handle(store, events[i]);
        assert (done + [one])[..i] == done;
        assert forall k | 0 <= k < i :: (done + [one])[k] == done[k];
        done := done + [one];
        i := i + 1;
      }
    }
  }
}
