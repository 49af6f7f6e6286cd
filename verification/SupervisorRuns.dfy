/** Safety of the supervisor over whole runs: every interleaving of commands, timer ticks, task
    results, concurrent pairing commits and connection losses, from a freshly started daemon. */
module SupervisorRuns {
  import opened Common
  import opened Connectivity
  import opened TrustJournal
  import opened Supervisor
  import opened Registry

  /** A daemon that has just started: its accept workers run, its managed peers are seeded. */
  ghost predicate JustStarted(w: World) {
    var r := w.rt;
    && r.sessions == map[] && r.dials == map[] && r.pending == map[] && r.running
    && r.tasks == Tasks(r.config.workers, 0, {}, map[], map[])
    && r.config.workers <= MAX_OWNED_TASKS
    && |r.sched.peers| <= MAX_MANAGED_PEERS
    && (forall d | d in r.sched.peers :: r.sched.peers[d].sessionId.None? && !r.sched.peers[d].suspended)
  }

  // ----- authorization -----

  lemma SeatAuthorized(r: Runtime, store: Store, c: Candidate, origin: Origin, env: Env)
    requires AllAuthorized(r.sessions, store) && c.device in r.sched.peers
    requires store.IsTrusted(c.device) && store.Generation(c.device) == c.generation
    ensures AllAuthorized(Seat(r, c, origin, env).0.sessions, store)
  {
    hide Existing, Judge, AddSession, Displace, Install;
    var v := Judge(r, c, origin);
    if v.Admit? {
      var base := Displace(r, c.device, v.existing, env);
      AddedShape(r, c, origin, v.existing, env);
      InstallIsAdd(base, c, origin, env);
    }
  }

  lemma RegisterAuthorized(r: Runtime, store: Store, c: Candidate, origin: Origin, env: Env)
    requires AllAuthorized(r.sessions, store)
    ensures AllAuthorized(RegisterSession(r, store, c, origin, env).0.sessions, store)
  {
    hide Seat, AllAuthorized, Canonical;
    if Screen(r, store, c).None? {
      SeatAuthorized(r.(sched := r.sched.Insert(c.device, env.now)), store, c, origin, env);
    }
  }

  /** What dialling never touches. */
  predicate SameSessions(r: Runtime, s: Runtime) {
    && s.sessions == r.sessions && s.nextSession == r.nextSession && s.tasks.sessions == r.tasks.sessions
    && s.closed == r.closed && s.config == r.config && s.running == r.running
  }

  lemma StartKeepsSessions(r: Runtime, store: Store, d: DeviceId, pairing: bool, manual: bool, env: Env)
    ensures SameSessions(r, StartOutbound(r, store, d, pairing, manual, env).0)
  {
    hide Canonical, StartDial;
    forall s: Runtime ensures SameSessions(s, StartDial(s, d, pairing, env).0) {
      StartDialKeepsSessions(s, d, pairing, env);
    }
  }

  lemma StartDialKeepsSessions(r: Runtime, d: DeviceId, pairing: bool, env: Env)
    ensures SameSessions(r, StartDial(r, d, pairing, env).0)
  {
    hide SameSessions, MarkDialling, AddDial, Busy;
    MarksKeepSessions(r, d, Internal, env);
    AddDialKeepsSessions(r, d, pairing);
    MarksKeepSessions(AddDial(r, d, pairing), d, Internal, env);
    SameSessionsCompose(r, AddDial(r, d, pairing), MarkDialling(AddDial(r, d, pairing), d));
  }

  lemma MarksKeepSessions(r: Runtime, d: DeviceId, code: Code, env: Env)
    ensures SameSessions(r, r) && SameSessions(r, MarkDialling(r, d)) && SameSessions(r, MarkFailed(r, d, code, env))
  {
  }

  lemma AddDialKeepsSessions(r: Runtime, d: DeviceId, pairing: bool)
    ensures SameSessions(r, AddDial(r, d, pairing))
  {
  }

  lemma SameSessionsCompose(r: Runtime, s: Runtime, t: Runtime)
    requires SameSessions(r, s) && SameSessions(s, t)
    ensures SameSessions(r, t)
  {
  }

  lemma SpawnKeepsSessions(r: Runtime, store: Store, d: DeviceId, pairing: bool, reply: Option<ReplyId>, env: Env)
    ensures SameSessions(r, SpawnOutbound(r, store, d, pairing, reply, env))
  {
    hide Canonical, StartOutbound, MarkFailed;
    StartKeepsSessions(r, store, d, pairing, reply.Some?, env);
    var (s, result) := StartOutbound(r, store, d, pairing, reply.Some?, env);
    if result.Err? {
      MarksKeepSessions(s, d, result.error, env);
    }
  }

  lemma TellKeepsSessions(r: Runtime, d: DeviceId, rec: DialRecord, answer: Answer, env: Env)
    ensures SameSessions(r, TellWaiters(r, d, rec, answer, env))
  {
    hide Canonical, MarkFailed;
    if answer.Refused? {
      MarksKeepSessions(r, d, answer.code, env);
    }
  }

  lemma DialDoneAuthorized(r: Runtime, store: Store, d: DeviceId, token: nat, result: Result<Candidate, Code>, env: Env)
    requires AllAuthorized(r.sessions, store)
    ensures AllAuthorized(DialDone(r, store, d, token, result, env).sessions, store)
  {
    hide AllAuthorized, RegisterSession, TakeDial, TellWaiters;
    TakenShape(r, d, token);
    if result.Ok? {
      RegisterAuthorized(TakeDial(r, d, token), store, result.value, Outbound, env);
    }
    if d in r.dials {
      var (s, answer) := SettleDial(TakeDial(r, d, token), store, d, r.dials[d].pairing, result, env);
      TellKeepsSessions(s, d, r.dials[d], answer, env);
    }
  }

  /** A pairing's trust commit takes nothing away; a failed revoke or forget changes nothing. */
  lemma CommitKeepsAuthorized(c: Codec, sessions: Sessions, store: Store, m: Mutation, expected: Option<(DeviceId, nat)>, io: Persist)
    requires AllAuthorized(sessions, store)
    requires m.Trust? || Commit(c, store, m, expected, io).1.Err?
    ensures AllAuthorized(sessions, Commit(c, store, m, expected, io).0)
  {
  }

  lemma InvalidateKeeps(r: Runtime, d: DeviceId)
    requires Sound(r, 0)
    ensures Sound(Invalidate(r, d), 0)
  {
    hide Sound, Purge, CancelDial;
    CancelDialKeeps(r, d, Refused(PeerNotTrusted), 0);
    PurgeKeeps(CancelDial(r, d, Refused(PeerNotTrusted)), d);
  }

  /** Once trust is withdrawn in the journal, the sessions left are those of other peers. */
  lemma WithdrawnLeavesAuthorized(c: Codec, r: Runtime, store: Store, m: Mutation, io: Persist)
    requires AllAuthorized(r.sessions, store) && !m.Trust? && Commit(c, store, m, None, io).1.Ok?
    ensures AllAuthorized(Invalidate(r, Target(m)).sessions, Commit(c, store, m, None, io).0)
  {
    hide Refusal, Record;
  }

  lemma MutateKeeps(c: Codec, w: World, m: Mutation, io: Persist)
    requires Inv(w) && !m.Trust?
    ensures Inv(Withdraw(c, w, m, io))
  {
    hide Sound, AllAuthorized, Commit, Invalidate;
    if Commit(c, w.store, m, None, io).1.Err? {
      CommitKeepsAuthorized(c, w.rt.sessions, w.store, m, None, io);
    } else {
      InvalidateKeeps(w.rt, Target(m));
      WithdrawnLeavesAuthorized(c, w.rt, w.store, m, io);
    }
  }

  lemma StopKeeps(r: Runtime)
    requires Sound(r, 0)
    ensures Sound(Shutdown(r), 0)
  {
    hide Agrees, Held, Numbered, Dialled, Quiet, Waiters;
    var s := Shutdown(r);
    assert s.dials.Keys == r.dials.Keys;
    assert |s.dials| == |s.dials.Keys| && |r.dials| == |r.dials.Keys|;
    StopDials(r.dials, r.tasks.dials);
    HeldFewer(r.sessions, map[], r.tasks.sessions, r.nextSession);
    NumberedFewer(r.pending, map[], r.tasks.pairings, r.nextPairing);
    NothingAgrees(s.dials);
  }

  lemma StopDials(dials: Dials, tasks: set<(DeviceId, nat)>)
    requires Dialled(dials, tasks)
    ensures Dialled(map d | d in dials :: dials[d].(cancelled := true, replies := []), tasks)
  {
  }

  lemma NothingAgrees(dials: Dials)
    ensures Agrees(map[], map[]) && Quiet(map[], dials)
  {
  }

  // ----- one step -----

  /** Every step keeps the registries sound and every session authorized. */
  lemma NextKeeps(c: Codec, w: World, e: Event)
    requires Inv(w)
    ensures Inv(Next(c, w, e))
  {
    hide Sound, AllAuthorized, Shutdown, Confirm, Withdraw, Commit;
    var r, store := w.rt, w.store;
    if r.running {
      match e {
        case RevokePeer(d, io) => MutateKeeps(c, w, Revoke(d), io);
        case ForgetPeer(d, io) => MutateKeeps(c, w, Forget(d), io);
        case PairingCommits(peer, g, io) =>
          CommitKeepsAuthorized(c, r.sessions, store, Trust(peer), Some((peer.deviceId, g)), io);
        case Stop =>
          StopKeeps(r);
          StopAuthorizes(r, store);
        case IpcConnected => ClientsKeep(r);
        case IpcEnded => ClientsKeep(r);
        case ConfirmPairing(_, _, _) => ConfirmKeeps(r, e.pid, e.accepted, e.delivered);
        case ConnectionLost(conn) => LossKeeps(r, conn);
        case _ => RuntimeStepKeeps(c, w, e);
      }
    }
  }

  lemma ClientsKeep(r: Runtime)
    requires Sound(r, 0)
    ensures r.tasks.Owned() < MAX_OWNED_TASKS ==> Sound(r.(tasks := r.tasks.(ipc := r.tasks.ipc + 1)), 0)
    ensures r.tasks.ipc > 0 ==> Sound(r.(tasks := r.tasks.(ipc := r.tasks.ipc - 1)), 0)
  {
    hide Agrees, Held, Numbered, Dialled, Quiet;
  }

  lemma LossKeeps(r: Runtime, conn: ConnId)
    requires Sound(r, 0)
    ensures Sound(Close(r, conn), 0)
  {
    hide Agrees, Held, Numbered, Dialled, Quiet;
  }

  lemma StopAuthorizes(r: Runtime, store: Store)
    ensures AllAuthorized(Shutdown(r).sessions, store)
  {
    hide Waiters;
  }

  lemma ConfirmKeeps(r: Runtime, pid: PairingId, accepted: bool, delivered: bool)
    requires Sound(r, 0)
    ensures Sound(Confirm(r, pid, accepted, delivered), 0) && Confirm(r, pid, accepted, delivered).sessions == r.sessions
  {
  }

  lemma RuntimeStepKeeps(c: Codec, w: World, e: Event)
    requires Inv(w) && w.rt.running
    requires e.Timer? || e.Dial? || e.Hint? || e.DisconnectSession? || e.Incoming? || e.DialEnded? || e.PairingEnded?
             || e.SessionEnded?
    ensures Inv(Next(c, w, e))
  {
    hide Sound, SpawnOutbound, Fire, RegisterSession, DialDone, CancelDial;
    var r, store := w.rt, w.store;
    match e {
      case Timer(env) => FireKeeps(r, store, env); FireKeepsSessions(r, store, env);
      case Dial(d, pairing, reply, env) =>
        SpawnOutboundKeeps(r, store, d, pairing, Some(reply), env);
        SpawnKeepsSessions(r, store, d, pairing, Some(reply), env);
      case Hint(d, now) => HintKeeps(r, d, now);
      case DisconnectSession(sid, now) => DisconnectKeeps(r, sid, now); CancelKeepsSessions(r, sid);
      case Incoming(result, env) =>
        if r.tasks.accept > 0 {
          IncomingKeeps(r, store, result, env);
          if result.Ok? {
            RegisterAuthorized(r.(tasks := r.tasks.(accept := r.tasks.accept - 1)), store, result.value, Inbound, env);
          }
        }
      case DialEnded(d, token, result, env) =>
        if (d, token) in r.tasks.dials {
          DialDoneKeeps(r, store, d, token, result, env);
          DialDoneAuthorized(r, store, d, token, result, env);
        }
      case PairingEnded(pid, outcome, env) =>
        if pid in r.tasks.pairings {
          PairingDoneKeeps(r, store, pid, outcome, env);
          if outcome.Some? && pid in r.pending {
            RegisterAuthorized(r.(tasks := r.tasks.(pairings := r.tasks.pairings - {pid}), pending := r.pending - {pid}),
                               store, outcome.value, r.pending[pid].origin, env);
          }
        }
      case SessionEnded(sid, failure, env) =>
        if sid in r.tasks.sessions {
          SessionDoneKeeps(r, sid, failure, env);
        }
    }
  }

  lemma CancelKeepsSessions(r: Runtime, sid: SessionId)
    ensures sid in r.sessions ==>
              var s := CancelDial(r, r.sessions[sid].device, Refused(ConnectionFailed));
              s.sessions == r.sessions && s.nextSession == r.nextSession
  {
  }

  lemma FireKeepsSessions(r: Runtime, store: Store, env: Env)
    ensures Fire(r, store, env).sessions == r.sessions && Fire(r, store, env).nextSession == r.nextSession
  {
    hide SpawnOutbound;
    if |r.dials| < r.config.maxDials && r.sched.Pick(env.now).Some? {
      SpawnKeepsSessions(r.(sched := r.sched.TakeDue(env.now)), store, r.sched.Pick(env.now).value, false, None, env);
    }
  }

  lemma HintKeeps(r: Runtime, d: DeviceId, now: Instant)
    requires Sound(r, 0)
    ensures Sound(Remember(r, d, now), 0)
  {
    hide Agrees, Held, Numbered, Dialled, Quiet, Bounded;
    if d in r.sched.peers && !r.sched.peers[d].suspended {
      PeerChangeKeeps(r, d, r.sched.peers[d].Resume(now), 0);
    }
  }

  // ----- every run -----

  /** REGISTRY AGREEMENT AND AUTHORIZATION, over every run of a started daemon. */
  lemma {:induction false} EveryRunIsSound(c: Codec, w: World, es: seq<Event>)
    requires JustStarted(w)
    ensures Inv(Run(c, w, es))
  {
    hide Next;
    if es == [] {
      assert |w.rt.sessions| == 0;
    } else {
      EveryRunIsSound(c, w, es[..|es| - 1]);
      NextKeeps(c, Run(c, w, es[..|es| - 1]), es[|es| - 1]);
    }
  }

  /** At most one session per device, never more than configured, one live task per dial record,
      no dial over its bounds, and never more than 1024 owned tasks. */
  lemma RegistryBounds(w: World)
    requires Inv(w)
    ensures forall s, t | s in w.rt.sessions && t in w.rt.sessions && w.rt.sessions[s].device == w.rt.sessions[t].device :: s == t
    ensures |w.rt.sessions| <= w.rt.config.maxSessions && |w.rt.dials| <= w.rt.config.maxDials
    ensures w.rt.tasks.Owned() <= MAX_OWNED_TASKS && w.rt.tasks.accept == w.rt.config.workers
    ensures |w.rt.dials| == |w.rt.tasks.dials|
  {
    hide Held, Numbered, Quiet;
    var r := w.rt;
    assert forall s, t | s in r.sessions && t in r.sessions && r.sessions[s].device == r.sessions[t].device :: s == t by {
      hide Dialled;
    }
    OneTaskPerRecord(r.dials, r.tasks.dials);
  }

  lemma {:induction false} OneTaskPerRecord(dials: Dials, tasks: set<(DeviceId, nat)>)
    requires Dialled(dials, tasks)
    ensures |dials| == |tasks|
    decreases |dials|
  {
    if dials.Keys == {} {
      assert |dials| == |dials.Keys|;
      assert tasks == {};
    } else {
      var d :| d in dials;
      assert (d, dials[d].token) in tasks;
      DialledTake(dials, tasks, d);
      hide Dialled;
      RemovedKey(dials, d);
      OneTaskPerRecord(dials - {d}, tasks - {(d, dials[d].token)});
    }
  }

  // ----- session identifiers -----

  /** A step adds at most one session, and only under the next unused identifier. */
  predicate OnlyNew(before: Sessions, next: nat, after: Sessions, next': nat) {
    next <= next' && forall sid | sid in after :: sid in before || next <= sid
  }

  lemma SeatOnlyNew(r: Runtime, c: Candidate, origin: Origin, env: Env)
    requires c.device in r.sched.peers
    ensures var s := Seat(r, c, origin, env).0; OnlyNew(r.sessions, r.nextSession, s.sessions, s.nextSession)
  {
    hide Existing, Judge, AddSession, Displace, Install;
    var v := Judge(r, c, origin);
    if v.Admit? {
      AddedShape(r, c, origin, v.existing, env);
      InstallIsAdd(Displace(r, c.device, v.existing, env), c, origin, env);
    }
  }

  lemma RegisterOnlyNew(r: Runtime, store: Store, c: Candidate, origin: Origin, env: Env)
    ensures var s := RegisterSession(r, store, c, origin, env).0;
            OnlyNew(r.sessions, r.nextSession, s.sessions, s.nextSession)
  {
    if Screen(r, store, c).None? {
      hide OnlyNew, Seat;
      SeatOnlyNew(r.(sched := r.sched.Insert(c.device, env.now)), c, origin, env);
    } else {
      hide Seat, Screen;
    }
  }

  lemma SettleOnlyNew(r: Runtime, store: Store, d: DeviceId, pairing: bool, result: Result<Candidate, Code>, env: Env)
    ensures var s := SettleDial(r, store, d, pairing, result, env).0;
            OnlyNew(r.sessions, r.nextSession, s.sessions, s.nextSession)
  {
    hide RegisterSession;
    if result.Ok? {
      RegisterOnlyNew(r, store, result.value, Outbound, env);
    }
  }

  lemma DialDoneOnlyNew(r: Runtime, store: Store, d: DeviceId, token: nat, result: Result<Candidate, Code>, env: Env)
    ensures var s := DialDone(r, store, d, token, result, env);
            OnlyNew(r.sessions, r.nextSession, s.sessions, s.nextSession)
  {
    hide SettleDial, TakeDial, TellWaiters;
    TakenShape(r, d, token);
    if d in r.dials {
      var r2, rec := TakeDial(r, d, token), r.dials[d];
      SettleOnlyNew(r2, store, d, rec.pairing, result, env);
      var (s, answer) := SettleDial(r2, store, d, rec.pairing, result, env);
      TellKeepsSessions(s, d, rec, answer, env);
    }
  }

  lemma IncomingOnlyNew(r: Runtime, store: Store, result: Result<Candidate, Code>, env: Env)
    ensures var s := IncomingDone(r, store, result, env); OnlyNew(r.sessions, r.nextSession, s.sessions, s.nextSession)
  {
    hide RegisterSession;
    if result.Ok? {
      RegisterOnlyNew(r.(tasks := r.tasks.(accept := if r.tasks.accept == 0 then 0 else r.tasks.accept - 1)),
                      store, result.value, Inbound, env);
    }
  }

  lemma PairingOnlyNew(r: Runtime, store: Store, pid: PairingId, outcome: Option<Candidate>, env: Env)
    requires pid in r.tasks.pairings
    ensures var s := PairingDone(r, store, pid, outcome, env); OnlyNew(r.sessions, r.nextSession, s.sessions, s.nextSession)
  {
    hide RegisterSession;
    if outcome.Some? && pid in r.pending {
      RegisterOnlyNew(r.(tasks := r.tasks.(pairings := r.tasks.pairings - {pid}), pending := r.pending - {pid}),
                      store, outcome.value, r.pending[pid].origin, env);
    }
  }

  lemma NextOnlyNew(c: Codec, w: World, e: Event)
    ensures var s := Next(c, w, e).rt; OnlyNew(w.rt.sessions, w.rt.nextSession, s.sessions, s.nextSession)
  {
    hide IncomingDone, PairingDone, SpawnOutbound, Fire, DialDone, Commit, Waiters, Resolving, CancelDial;
    var r, store := w.rt, w.store;
    match e {
      case Timer(env) => FireKeepsSessions(r, store, env);
      case Dial(d, pairing, reply, env) => SpawnKeepsSessions(r, store, d, pairing, Some(reply), env);
      case DisconnectSession(sid, now) => CancelKeepsSessions(r, sid);
      case RevokePeer(d, io) => CancelSame(r, d, Refused(PeerNotTrusted));
      case ForgetPeer(d, io) => CancelSame(r, d, Refused(PeerNotTrusted));
      case Incoming(result, env) => IncomingOnlyNew(r, store, result, env);
      case DialEnded(d, token, result, env) => DialDoneOnlyNew(r, store, d, token, result, env);
      case PairingEnded(pid, outcome, env) =>
        if pid in r.tasks.pairings {
          PairingOnlyNew(r, store, pid, outcome, env);
        }
      case _ =>
    }
  }

  lemma CancelSame(r: Runtime, d: DeviceId, answer: Answer)
    ensures CancelDial(r, d, answer).sessions == r.sessions && CancelDial(r, d, answer).nextSession == r.nextSession
    ensures CancelDial(r, d, answer).sched == r.sched
  {
  }

  /** NO REUSE. A session identifier that was allocated and is out of the registry never names a
      session again. */
  lemma {:induction false} SessionIdsAreNeverReused(c: Codec, w: World, es: seq<Event>, sid: SessionId)
    requires sid < w.rt.nextSession && sid !in w.rt.sessions
    ensures sid !in Run(c, w, es).rt.sessions && sid < Run(c, w, es).rt.nextSession
  {
    hide Next;
    if es != [] {
      SessionIdsAreNeverReused(c, w, es[..|es| - 1], sid);
      NextOnlyNew(c, Run(c, w, es[..|es| - 1]), es[|es| - 1]);
    }
  }
}
