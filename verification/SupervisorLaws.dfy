/** What the supervisor owes the connections it is handed: each is closed or held by a task, the
    connection of a session that left the registry is closed, and none is closed without a reason. */
module Connections {
  import opened Common
  import opened Connectivity
  import opened TrustJournal
  import opened Supervisor
  import opened Registry
  import opened SupervisorRuns
  import CrossDial

  type Holders = map<SessionId, Holder>

  /** A task of a session that is no longer registered holds a closed connection. */
  ghost predicate OrphansClosed(r: Runtime) {
    forall sid | sid in r.tasks.sessions && sid !in r.sessions :: r.tasks.sessions[sid].conn in r.closed
  }

  ghost predicate HeldBySession(r: Runtime, conn: ConnId) {
    exists sid :: sid in r.tasks.sessions && r.tasks.sessions[sid].conn == conn
  }

  ghost predicate HeldByPairing(r: Runtime, conn: ConnId) {
    exists pid :: pid in r.tasks.pairings && r.tasks.pairings[pid].conn == conn
  }

  /** The connection is closed, or a task holds it. */
  ghost predicate Kept(r: Runtime, conn: ConnId) {
    conn in r.closed || HeldBySession(r, conn) || HeldByPairing(r, conn)
  }

  // ----- what one step does with connections -----

  /** Whoever stops being registered, or stops running, leaves a closed connection behind. */
  ghost predicate Tidy(r: Runtime, s: Runtime) {
    && r.closed <= s.closed
    && (forall sid | sid in r.tasks.sessions ::
          (sid in s.tasks.sessions && s.tasks.sessions[sid] == r.tasks.sessions[sid]) || r.tasks.sessions[sid].conn in s.closed)
    && (forall pid | pid in r.tasks.pairings ::
          (pid in s.tasks.pairings && s.tasks.pairings[pid] == r.tasks.pairings[pid]) || Kept(s, r.tasks.pairings[pid].conn))
    && (forall sid | sid in s.tasks.sessions && sid !in s.sessions ::
          || s.tasks.sessions[sid].conn in s.closed
          || (sid in r.tasks.sessions && sid !in r.sessions && s.tasks.sessions[sid] == r.tasks.sessions[sid]))
  }

  /** Why a connection is closed in a step: it was lost, it is the one that was brought, or the
      session or pairing it belonged to left the registry, or its task ended. */
  ghost predicate Reasoned(r: Runtime, s: Runtime, news: set<ConnId>, conn: ConnId) {
    || conn in news
    || (exists sid :: sid in r.sessions && sid !in s.sessions && r.sessions[sid].conn == conn)
    || (exists pid :: pid in r.pending && pid !in s.pending && r.pending[pid].conn == conn)
    || (exists sid :: sid in r.tasks.sessions && sid !in s.tasks.sessions && r.tasks.sessions[sid].conn == conn)
    || (exists pid :: pid in r.tasks.pairings && pid !in s.tasks.pairings && r.tasks.pairings[pid].conn == conn)
  }

  ghost predicate Custody(r: Runtime, s: Runtime, news: set<ConnId>) {
    && Tidy(r, s)
    && (forall conn | conn in news :: Kept(s, conn))
    && (forall conn | conn in s.closed && conn !in r.closed :: Reasoned(r, s, news, conn))
  }

  /** Steps that touch neither sessions nor pairings nor connections. */
  predicate SameHolders(r: Runtime, s: Runtime) {
    && s.sessions == r.sessions && s.pending == r.pending && s.closed == r.closed
    && s.tasks.sessions == r.tasks.sessions && s.tasks.pairings == r.tasks.pairings
  }

  lemma SameIsCustody(r: Runtime, s: Runtime)
    requires SameHolders(r, s)
    ensures Custody(r, s, {})
  {
  }

  /** Bookkeeping around a step does not matter. */
  lemma CustodyOf(r: Runtime, r1: Runtime, s1: Runtime, s: Runtime, news: set<ConnId>)
    requires SameHolders(r, r1) && Custody(r1, s1, news) && SameHolders(s1, s)
    ensures Custody(r, s, news)
  {
    hide Reasoned, Kept;
    forall conn ensures Kept(s1, conn) <==> Kept(s, conn) {
      SameKept(s1, s, conn);
    }
    forall conn | Reasoned(r1, s1, news, conn) ensures Reasoned(r, s, news, conn) {
      SameReason(r, r1, s1, s, news, conn);
    }
  }

  lemma SameKept(r: Runtime, s: Runtime, conn: ConnId)
    requires SameHolders(r, s)
    ensures Kept(r, conn) <==> Kept(s, conn)
  {
  }

  lemma SameReason(r: Runtime, r1: Runtime, s1: Runtime, s: Runtime, news: set<ConnId>, conn: ConnId)
    requires SameHolders(r, r1) && SameHolders(s1, s) && Reasoned(r1, s1, news, conn)
    ensures Reasoned(r, s, news, conn)
  {
  }

  lemma CloseIsCustody(r: Runtime, conn: ConnId)
    ensures Custody(r, Close(r, conn), {conn})
  {
  }

  lemma AdmitIsCustody(r: Runtime, s: Runtime, c: Candidate, origin: Origin, e: Option<SessionId>)
    requires Held(r.sessions, r.tasks.sessions, r.nextSession) && (e.Some? ==> e.value in r.sessions)
    requires s.sessions == (r.sessions - Gone(e))[r.nextSession := SessionRecord(c.device, c.conn, origin, c.generation)]
    requires s.tasks.sessions == r.tasks.sessions[r.nextSession := Holder(c.device, c.conn)]
    requires s.closed == if e.Some? then r.closed + {r.sessions[e.value].conn} else r.closed
    requires s.pending == r.pending && s.tasks.pairings == r.tasks.pairings
    ensures Custody(r, s, {c.conn})
  {
    assert s.tasks.sessions[r.nextSession].conn == c.conn;
    if e.Some? {
      assert e.value in r.sessions && e.value !in s.sessions;
    }
  }

  lemma DisplaceKeepsPairings(r: Runtime, d: DeviceId, e: Option<SessionId>, env: Env)
    requires e.Some? ==> e.value in r.sessions
    ensures Displace(r, d, e, env).pending == r.pending && Displace(r, d, e, env).tasks == r.tasks
  {
    hide Peer.Lose;
  }

  lemma AddKeepsPairings(r: Runtime, c: Candidate, origin: Origin, now: Instant)
    ensures var s := AddSession(r, c, origin, now); s.pending == r.pending && s.tasks.pairings == r.tasks.pairings
  {
    hide Peer.Connect;
  }

  lemma CancelKeepsPairings(r: Runtime, d: DeviceId, answer: Answer)
    ensures CancelDial(r, d, answer).pending == r.pending && CancelDial(r, d, answer).tasks == r.tasks
  {
  }

  lemma InstallKeepsPairings(r: Runtime, c: Candidate, origin: Origin, e: Option<SessionId>, env: Env)
    requires e.Some? ==> e.value in r.sessions
    ensures var s := Install(Displace(r, c.device, e, env), c, origin, env);
            s.pending == r.pending && s.tasks.pairings == r.tasks.pairings
  {
    hide AddSession, Displace, CancelDial;
    var base := Displace(r, c.device, e, env);
    var s := AddSession(base, c, origin, env.now);
    DisplaceKeepsPairings(r, c.device, e, env);
    AddKeepsPairings(base, c, origin, env.now);
    CancelKeepsPairings(s, c.device, ToSession(c.device, base.nextSession));
  }

  lemma RegisterIsCustody(r: Runtime, store: Store, c: Candidate, origin: Origin, env: Env)
    requires Held(r.sessions, r.tasks.sessions, r.nextSession)
    ensures Custody(r, RegisterSession(r, store, c, origin, env).0, {c.conn})
  {
    hide Custody, Install, Displace, Existing, Canonical, Judge;
    CloseIsCustody(r, c.conn);
    if Screen(r, store, c).None? {
      var base := r.(sched := r.sched.Insert(c.device, env.now));
      CustodyOf(r, base, Close(base, c.conn), Close(base, c.conn), {c.conn}) by {
        CloseIsCustody(base, c.conn);
      }
      var v := Judge(base, c, origin);
      if v.Admit? {
        CrossDial.AdmitArrives(base, c, origin, env, v.existing);
        InstallKeepsPairings(base, c, origin, v.existing, env);
        var s := Install(Displace(base, c.device, v.existing, env), c, origin, env);
        AdmitIsCustody(base, s, c, origin, v.existing);
        CustodyOf(r, base, s, s, {c.conn});
      }
    }
  }

  lemma PendingIsCustody(r: Runtime, store: Store, c: Candidate, origin: Origin)
    requires Numbered(r.pending, r.tasks.pairings, r.nextPairing)
    ensures Custody(r, RegisterPending(r, store, c, origin).0, {c.conn})
  {
    hide Custody;
    CloseIsCustody(r, c.conn);
    var s, pid := RegisterPending(r, store, c, origin).0, r.nextPairing;
    if RegisterPending(r, store, c, origin).1.Ok? {
      AddPairingIsCustody(r, s, pid, c);
    }
  }

  lemma AddPairingIsCustody(r: Runtime, s: Runtime, pid: PairingId, c: Candidate)
    requires pid !in r.tasks.pairings && s.tasks.pairings == r.tasks.pairings[pid := Holder(c.device, c.conn)]
    requires s.sessions == r.sessions && s.tasks.sessions == r.tasks.sessions && s.closed == r.closed
    ensures Custody(r, s, {c.conn})
  {
    assert s.tasks.pairings[pid].conn == c.conn;
  }

  lemma SpawnIsSame(r: Runtime, store: Store, d: DeviceId, pairing: bool, reply: Option<ReplyId>, env: Env)
    ensures SameHolders(r, SpawnOutbound(r, store, d, pairing, reply, env))
  {
    SpawnKeepsSessions(r, store, d, pairing, reply, env);
    hide StartOutbound, MarkFailed, Canonical;
    StartKeepsPending(r, store, d, pairing, reply.Some?, env);
    var (s, result) := StartOutbound(r, store, d, pairing, reply.Some?, env);
    if result.Err? {
      MarkKeepsPending(s, d, result.error, env);
    }
  }

  predicate SamePending(r: Runtime, s: Runtime) {
    s.pending == r.pending && s.tasks.pairings == r.tasks.pairings
  }

  lemma MarkKeepsPending(r: Runtime, d: DeviceId, code: Code, env: Env)
    ensures SamePending(r, MarkDialling(r, d)) && SamePending(r, MarkFailed(r, d, code, env))
  {
  }

  lemma StartKeepsPending(r: Runtime, store: Store, d: DeviceId, pairing: bool, manual: bool, env: Env)
    ensures SamePending(r, StartOutbound(r, store, d, pairing, manual, env).0)
  {
    hide Canonical, MarkDialling, Busy, Tasks.Owned, DialRefusal, Sched.Insert, Peer.Resume;
    forall s: Runtime ensures SamePending(s, MarkDialling(s, d)) {
      MarkKeepsPending(s, d, Internal, env);
    }
  }

  lemma TellIsSame(r: Runtime, d: DeviceId, rec: DialRecord, answer: Answer, env: Env)
    ensures SameHolders(r, TellWaiters(r, d, rec, answer, env))
  {
    TellKeepsSessions(r, d, rec, answer, env);
    hide Canonical, MarkFailed;
    if answer.Refused? {
      MarkKeepsPending(r, d, answer.code, env);
    }
  }

  function Conn(result: Result<Candidate, Code>): set<ConnId> {
    if result.Ok? then {result.value.conn} else {}
  }

  lemma SettleIsCustody(r: Runtime, store: Store, d: DeviceId, pairing: bool, result: Result<Candidate, Code>, env: Env)
    requires Held(r.sessions, r.tasks.sessions, r.nextSession) && Numbered(r.pending, r.tasks.pairings, r.nextPairing)
    ensures Custody(r, SettleDial(r, store, d, pairing, result, env).0, Conn(result))
  {
    hide Custody, RegisterSession, RegisterPending;
    SameIsCustody(r, r);
    if result.Ok? {
      RegisterIsCustody(r, store, result.value, Outbound, env);
      PendingIsCustody(r, store, result.value, Outbound);
      CloseIsCustody(r, result.value.conn);
    }
  }

  lemma DropIsCustody(r: Runtime, result: Result<Candidate, Code>)
    ensures Custody(r, DropResult(r, result), Conn(result))
  {
    hide Custody;
    SameIsCustody(r, r);
    if result.Ok? {
      CloseIsCustody(r, result.value.conn);
    }
  }

  lemma DialDoneIsCustody(r: Runtime, store: Store, d: DeviceId, token: nat, result: Result<Candidate, Code>, env: Env)
    requires Held(r.sessions, r.tasks.sessions, r.nextSession) && Numbered(r.pending, r.tasks.pairings, r.nextPairing)
    ensures Custody(r, DialDone(r, store, d, token, result, env), Conn(result))
  {
    hide Custody, SettleDial, TellWaiters, DropResult;
    var r1 := r.(tasks := r.tasks.(dials := r.tasks.dials - {(d, token)}));
    DropIsCustody(r1, result);
    CustodyOf(r, r1, DropResult(r1, result), DropResult(r1, result), Conn(result));
    if d in r.dials && r.dials[d].token == token {
      var r2 := TakeDial(r, d, token);
      DropIsCustody(r2, result);
      CustodyOf(r, r2, DropResult(r2, result), DropResult(r2, result), Conn(result));
      SettleIsCustody(r2, store, d, r.dials[d].pairing, result, env);
      var (r3, answer) := SettleDial(r2, store, d, r.dials[d].pairing, result, env);
      TellIsSame(r3, d, r.dials[d], answer, env);
      CustodyOf(r, r2, r3, TellWaiters(r3, d, r.dials[d], answer, env), Conn(result));
    }
  }

  lemma IncomingIsCustody(r: Runtime, store: Store, result: Result<Candidate, Code>, env: Env)
    requires Held(r.sessions, r.tasks.sessions, r.nextSession) && Numbered(r.pending, r.tasks.pairings, r.nextPairing)
    ensures Custody(r, IncomingDone(r, store, result, env), Conn(result))
  {
    hide Custody, RegisterSession, RegisterPending;
    var r1 := r.(tasks := r.tasks.(accept := if r.tasks.accept == 0 then 0 else r.tasks.accept - 1));
    SameIsCustody(r1, r1);
    var r2 := r1;
    if result.Ok? {
      RegisterIsCustody(r1, store, result.value, Inbound, env);
      PendingIsCustody(r1, store, result.value, Inbound);
      r2 := if result.value.Authorized? then RegisterSession(r1, store, result.value, Inbound, env).0
            else RegisterPending(r1, store, result.value, Inbound).0;
    }
    CustodyOf(r, r1, r2, r2.(tasks := r2.tasks.(accept := r2.tasks.accept + 1)), Conn(result));
  }

  /** A pairing that completed hands over the connection it had. */
  predicate HandsOver(r: Runtime, pid: PairingId, outcome: Option<Candidate>)
    requires pid in r.tasks.pairings
  {
    outcome.Some? ==> outcome.value.conn == r.tasks.pairings[pid].conn
  }

  lemma PairingEndIsCustody(r: Runtime, r1: Runtime, s: Runtime, pid: PairingId, conn: ConnId)
    requires pid in r.tasks.pairings && r.tasks.pairings[pid].conn == conn && Custody(r1, s, {conn})
    requires r1 == r.(tasks := r.tasks.(pairings := r.tasks.pairings - {pid}), pending := r.pending - {pid})
    ensures Custody(r, s, {conn})
  {
    assert Kept(s, conn);
    forall other | other in r.tasks.pairings && other != pid
      ensures (other in s.tasks.pairings && s.tasks.pairings[other] == r.tasks.pairings[other]) || Kept(s, r.tasks.pairings[other].conn)
    {
      assert other in r1.tasks.pairings && r1.tasks.pairings[other] == r.tasks.pairings[other];
    }
    forall x | x in s.closed && x !in r.closed ensures Reasoned(r, s, {conn}, x) {
      assert Reasoned(r1, s, {conn}, x);
    }
    hide Kept, Reasoned;
  }

  lemma PairingDoneIsCustody(r: Runtime, store: Store, pid: PairingId, outcome: Option<Candidate>, env: Env)
    requires pid in r.tasks.pairings && HandsOver(r, pid, outcome) && Held(r.sessions, r.tasks.sessions, r.nextSession)
    ensures Custody(r, PairingDone(r, store, pid, outcome, env), {r.tasks.pairings[pid].conn})
  {
    hide Custody, RegisterSession;
    var r1, conn := r.(tasks := r.tasks.(pairings := r.tasks.pairings - {pid}), pending := r.pending - {pid}), r.tasks.pairings[pid].conn;
    CloseIsCustody(r1, conn);
    PairingEndIsCustody(r, r1, Close(r1, conn), pid, conn);
    if outcome.Some? && pid in r.pending {
      RegisterIsCustody(r1, store, outcome.value, r.pending[pid].origin, env);
      PairingEndIsCustody(r, r1, RegisterSession(r1, store, outcome.value, r.pending[pid].origin, env).0, pid, conn);
    }
  }

  lemma SessionDoneIsCustody(r: Runtime, sid: SessionId, failure: Failure, env: Env)
    requires sid in r.tasks.sessions && Held(r.sessions, r.tasks.sessions, r.nextSession)
    ensures Custody(r, SessionDone(r, sid, failure, env), {})
  {
    CrossDial.SessionDoneShape(r, sid, failure, env);
    SessionDoneKeepsPending(r, sid, failure, env);
    hide SessionDone;
  }

  lemma SessionDoneKeepsPending(r: Runtime, sid: SessionId, failure: Failure, env: Env)
    requires sid in r.tasks.sessions
    ensures SamePending(r, SessionDone(r, sid, failure, env))
  {
  }

  lemma DisconnectIsCustody(r: Runtime, sid: SessionId, now: Instant)
    requires Held(r.sessions, r.tasks.sessions, r.nextSession)
    ensures Custody(r, Disconnect(r, sid, now), {})
  {
  }

  lemma PurgeIsCustody(r: Runtime, d: DeviceId)
    requires Held(r.sessions, r.tasks.sessions, r.nextSession)
    ensures Custody(r, Invalidate(r, d), {})
  {
  }

  lemma StopIsCustody(r: Runtime)
    requires Held(r.sessions, r.tasks.sessions, r.nextSession)
    ensures Custody(r, Shutdown(r), {})
  {
    hide Waiters;
  }

  // ----- steps and runs -----

  /** The connections an event brings to the supervisor's notice. */
  function Brought(w: World, e: Event): set<ConnId> {
    if !w.rt.running then {} else
    match e
    case Incoming(result, _) => if w.rt.tasks.accept > 0 then Conn(result) else {}
    case DialEnded(d, token, result, _) => if (d, token) in w.rt.tasks.dials then Conn(result) else {}
    case PairingEnded(pid, _, _) => if pid in w.rt.tasks.pairings then {w.rt.tasks.pairings[pid].conn} else {}
    case ConnectionLost(conn) => {conn}
    case _ => {}
  }

  predicate Sensible(w: World, e: Event) {
    e.PairingEnded? && e.pid in w.rt.tasks.pairings ==> HandsOver(w.rt, e.pid, e.outcome)
  }

  /** Every step accounts for the connections it is brought, and closes none without a reason. */
  lemma NextIsCustody(c: Codec, w: World, e: Event)
    requires Inv(w) && Sensible(w, e)
    ensures Custody(w.rt, Next(c, w, e).rt, Brought(w, e))
  {
    hide IncomingDone, PairingDone, SpawnOutbound, DialDone, Invalidate, Disconnect, Shutdown, SessionDone, Resolving, Commit, Custody;
    hide Agrees, Held, Numbered, Bounded, Dialled, Quiet, AllAuthorized;
    var r, store := w.rt, w.store;
    SameIsCustody(r, r);
    if r.running {
      match e {
        case Timer(env) => FireIsSame(r, store, env);
        case Dial(d, pairing, reply, env) => SpawnIsSame(r, store, d, pairing, Some(reply), env);
        case RevokePeer(d, io) => PurgeIsCustody(r, d);
        case ForgetPeer(d, io) => PurgeIsCustody(r, d);
        case DisconnectSession(sid, now) => DisconnectIsCustody(r, sid, now);
        case Incoming(result, env) => IncomingIsCustody(r, store, result, env);
        case DialEnded(d, token, result, env) => DialDoneIsCustody(r, store, d, token, result, env);
        case PairingEnded(pid, outcome, env) =>
          if pid in r.tasks.pairings {
            PairingDoneIsCustody(r, store, pid, outcome, env);
          }
        case SessionEnded(sid, failure, env) =>
          if sid in r.tasks.sessions {
            SessionDoneIsCustody(r, sid, failure, env);
          }
        case ConnectionLost(conn) => CloseIsCustody(r, conn);
        case ConfirmPairing(pid, accepted, delivered) => ConfirmIsCustody(r, pid, accepted, delivered);
        case Stop => StopIsCustody(r);
        case _ => SameIsCustody(r, Next(c, w, e).rt);
      }
      if e.Timer? || e.Dial? {
        SameIsCustody(r, Next(c, w, e).rt);
      }
    }
  }

  lemma FireIsSame(r: Runtime, store: Store, env: Env)
    ensures SameHolders(r, Fire(r, store, env))
  {
    hide SpawnOutbound;
    if |r.dials| < r.config.maxDials && r.sched.Pick(env.now).Some? {
      SpawnIsSame(r.(sched := r.sched.TakeDue(env.now)), store, r.sched.Pick(env.now).value, false, None, env);
    }
  }

  lemma ConfirmIsCustody(r: Runtime, pid: PairingId, accepted: bool, delivered: bool)
    ensures Custody(r, Confirm(r, pid, accepted, delivered), {})
  {
    hide Resolving;
  }

  /** Every connection brought in a run. */
  ghost function Seen(c: Codec, w: World, es: seq<Event>): set<ConnId> {
    if es == [] then {} else Seen(c, w, es[..|es| - 1]) + Brought(Run(c, w, es[..|es| - 1]), es[|es| - 1])
  }

  ghost predicate SensibleRun(c: Codec, w: World, es: seq<Event>) {
    es != [] ==> SensibleRun(c, w, es[..|es| - 1]) && Sensible(Run(c, w, es[..|es| - 1]), es[|es| - 1])
  }

  lemma StillKept(r: Runtime, s: Runtime, conn: ConnId)
    requires Tidy(r, s) && Kept(r, conn)
    ensures Kept(s, conn)
  {
    if conn !in s.closed {
      if HeldBySession(r, conn) {
        var sid :| sid in r.tasks.sessions && r.tasks.sessions[sid].conn == conn;
        assert sid in s.tasks.sessions && s.tasks.sessions[sid].conn == conn;
      } else {
        var pid :| pid in r.tasks.pairings && r.tasks.pairings[pid].conn == conn;
        if pid in s.tasks.pairings && s.tasks.pairings[pid] == r.tasks.pairings[pid] {
          assert s.tasks.pairings[pid].conn == conn;
        }
      }
    }
  }

  lemma StillOrphansClosed(r: Runtime, s: Runtime)
    requires Tidy(r, s) && OrphansClosed(r)
    ensures OrphansClosed(s)
  {
    hide Kept;
  }

  /** NO CONNECTION IS LOST. In every run, every connection the supervisor was brought is closed or held
      by a task, and a session task whose session is no longer registered holds a closed one. */
  lemma {:induction false} NoConnectionIsLost(c: Codec, w: World, es: seq<Event>)
    requires JustStarted(w) && SensibleRun(c, w, es)
    ensures OrphansClosed(Run(c, w, es).rt)
    ensures forall conn | conn in Seen(c, w, es) :: Kept(Run(c, w, es).rt, conn)
    decreases |es|
  {
    if es != [] {
      var before, e := Run(c, w, es[..|es| - 1]), es[|es| - 1];
      NoConnectionIsLost(c, w, es[..|es| - 1]);
      EveryRunIsSound(c, w, es[..|es| - 1]);
      NextIsCustody(c, before, e);
      hide Next, Inv, Tidy, Kept, OrphansClosed, Reasoned, Brought, Sensible;
      var after := Next(c, before, e);
      StillOrphansClosed(before.rt, after.rt);
      forall conn | conn in Seen(c, w, es[..|es| - 1]) ensures Kept(after.rt, conn) {
        StillKept(before.rt, after.rt, conn);
      }
    }
  }

  /** So an open connection that a session task holds is that of a registered session. */
  lemma OpenIsRegistered(c: Codec, w: World, es: seq<Event>, sid: SessionId)
    requires JustStarted(w) && SensibleRun(c, w, es)
    requires sid in Run(c, w, es).rt.tasks.sessions && Run(c, w, es).rt.tasks.sessions[sid].conn !in Run(c, w, es).rt.closed
    ensures var r := Run(c, w, es).rt;
            sid in r.sessions && r.sessions[sid].conn == r.tasks.sessions[sid].conn && Run(c, w, es).store.IsTrusted(r.sessions[sid].device)
  {
    NoConnectionIsLost(c, w, es);
    EveryRunIsSound(c, w, es);
  }
}

/** What each command and each result comes to, stated on what can be observed: who is answered what,
    which connections are closed, and what is registered afterwards. */
module Effects {
  import opened Common
  import opened Connectivity
  import opened TrustJournal
  import opened Supervisor
  import opened Registry
  import opened SupervisorRuns
  import opened DialAnswers
  import CrossDial
  import Connections

  // ----- registering a connection -----

  /** No registered session has this connection. */
  predicate Unused(sessions: Sessions, conn: ConnId) {
    forall sid | sid in sessions :: sessions[sid].conn != conn
  }

  /** Why a connection cannot be registered as a session, in the order in which it is found out. */
  ghost function SessionRefusal(r: Runtime, store: Store, c: Candidate): Code {
    if !store.IsTrusted(c.device) || store.Generation(c.device) != c.generation then PeerNotTrusted
    else if c.conn in r.closed then ConnectionFailed
    else if !r.sched.HasRoom(c.device) || Full(r, c.device) then CapacityExceeded
    else Internal
  }

  /** Something stands against registering the connection. */
  ghost predicate Refusable(r: Runtime, store: Store, c: Candidate) {
    || !store.IsTrusted(c.device) || store.Generation(c.device) != c.generation || c.conn in r.closed
    || !r.sched.HasRoom(c.device) || Full(r, c.device) || r.nextSession >= U64_MAX
  }

  ghost predicate Full(r: Runtime, d: DeviceId) {
    (Existing(r, d).None? && |r.sessions| >= r.config.maxSessions) || r.tasks.Owned() >= MAX_OWNED_TASKS - 1
  }

  lemma OneSessionEach(r: Runtime, s: Runtime, d: DeviceId)
    requires Agrees(r.sessions, r.sched.peers) && s.sessions == r.sessions
    ensures Existing(r, d) == Existing(s, d)
    ensures forall sid | sid in r.sessions && r.sessions[sid].device == d :: Existing(r, d) == Some(sid)
  {
    OneExisting(r, s, d);
    ExistingIsRegistered(r, d);
    forall sid | sid in r.sessions && r.sessions[sid].device == d ensures Existing(r, d) == Some(sid) {
      assert SessionWith(r, d, sid);
    }
  }

  lemma AdmittedIsOpen(r: Runtime, c: Candidate, origin: Origin, e: Option<SessionId>, env: Env)
    requires c.device in r.sched.peers && (e.Some? ==> e.value in r.sessions) && Unused(r.sessions, c.conn) && c.conn !in r.closed
    ensures OpenSession(Install(Displace(r, c.device, e, env), c, origin, env), c.device, r.nextSession)
  {
    CrossDial.AdmitArrives(r, c, origin, env, e);
    hide Install, Displace;
  }

  lemma SeatAnswers(r: Runtime, c: Candidate, origin: Origin, env: Env)
    requires c.device in r.sched.peers && Unused(r.sessions, c.conn) && c.conn !in r.closed
    ensures var (s, result) := Seat(r, c, origin, env);
            && (result.Ok? ==> OpenSession(s, c.device, result.value))
            && (result.Err? ==> result.error == if Full(r, c.device) then CapacityExceeded else Internal)
            && (result.Err? ==> (Full(r, c.device) || r.nextSession >= U64_MAX) && c.conn in s.closed)
  {
    hide Install, Displace, Existing;
    ExistingIsRegistered(r, c.device);
    var v := Judge(r, c, origin);
    if v.Admit? {
      AdmittedIsOpen(r, c, origin, v.existing, env);
    } else if v.KeepOld? {
      ClosedStaysOpen(r, c);
    }
  }

  /** A registration that succeeds names an open session with the peer; one that fails says why. */
  lemma RegisterAnswers(r: Runtime, store: Store, c: Candidate, origin: Origin, env: Env)
    requires Agrees(r.sessions, r.sched.peers) && Unused(r.sessions, c.conn)
    ensures var (s, result) := RegisterSession(r, store, c, origin, env);
            && (result.Ok? ==> OpenSession(s, c.device, result.value))
            && (result.Err? ==> result.error == SessionRefusal(r, store, c) && Refusable(r, store, c) && c.conn in s.closed)
  {
    hide Seat, Existing, Agrees, OpenSession;
    CanonicalIsOpen(r, c.device);
    ClosedStaysOpen(r, c);
    if Screen(r, store, c).None? {
      var base := r.(sched := r.sched.Insert(c.device, env.now));
      OneSessionEach(r, base, c.device);
      SeatAnswers(base, c, origin, env);
    }
    hide Canonical;
  }

  /** The only session a step may add is that of the newcomer, with its own connection and direction. */
  ghost predicate OnlyAdds(r: Runtime, s: Runtime, c: Candidate, origin: Origin) {
    forall sid | sid in s.sessions ::
      || (sid in r.sessions && s.sessions[sid] == r.sessions[sid])
      || (sid == r.nextSession && s.sessions[sid] == SessionRecord(c.device, c.conn, origin, c.generation))
  }

  lemma RegisterOnlyAdds(r: Runtime, store: Store, c: Candidate, origin: Origin, env: Env)
    ensures OnlyAdds(r, RegisterSession(r, store, c, origin, env).0, c, origin)
  {
    hide Install, Displace, Existing, Judge, Screen;
    var base := r.(sched := r.sched.Insert(c.device, env.now));
    var v := Judge(base, c, origin);
    if Screen(r, store, c).None? && v.Admit? {
      assert c.device in base.sched.peers by { ScreenedHasRoom(r, store, c, env); }
      CrossDial.AdmitArrives(base, c, origin, env, v.existing);
    }
  }

  lemma ScreenedHasRoom(r: Runtime, store: Store, c: Candidate, env: Env)
    requires Screen(r, store, c).None?
    ensures c.device in r.sched.Insert(c.device, env.now).peers
  {
  }

  lemma CanonicalIsOpen(r: Runtime, d: DeviceId)
    ensures Canonical(r, d).Some? ==> OpenSession(r, d, Canonical(r, d).value)
  {
  }

  lemma ClosedStaysOpen(r: Runtime, c: Candidate)
    requires Unused(r.sessions, c.conn)
    ensures forall sid :: OpenSession(r, c.device, sid) ==> OpenSession(Close(r, c.conn), c.device, sid)
  {
  }

  /** What a dial's callers are told of a result that left no open session: the dial's own error. */
  ghost function OwnError(r: Runtime, store: Store, result: Result<Candidate, Code>): Code {
    if result.Err? then result.error
    else if result.value.Authorized? then SessionRefusal(r, store, result.value)
    else Internal
  }

  /** The connection a dial brings is new, and with the device dialled. */
  predicate Brings(r: Runtime, d: DeviceId, result: Result<Candidate, Code>) {
    result.Ok? ==> result.value.device == d && Unused(r.sessions, result.value.conn)
  }

  lemma SettleAnswers(r: Runtime, store: Store, d: DeviceId, result: Result<Candidate, Code>, env: Env)
    requires Agrees(r.sessions, r.sched.peers) && Brings(r, d, result)
    ensures var (s, answer) := SettleDial(r, store, d, false, result, env);
            && s.answers == r.answers && s.dials == r.dials && s.tasks.dials == r.tasks.dials
            && (answer.ToSession? ==> answer.device == d && OpenSession(s, d, answer.sid))
            && (!answer.ToSession? ==> answer == Refused(OwnError(r, store, result)))
            && (if result.Ok? then OnlyAdds(r, s, result.value, Outbound) else s.sessions == r.sessions)
  {
    hide RegisterSession, Agrees, Existing, OpenSession;
    if result.Ok? {
      RegisterOnlyAdds(r, store, result.value, Outbound, env);
      RegisterAnswers(r, store, result.value, Outbound, env);
      OutboundIsQuiet(r, store, result.value, env);
    }
  }

  lemma OutboundIsQuiet(r: Runtime, store: Store, c: Candidate, env: Env)
    ensures var s := RegisterSession(r, store, c, Outbound, env).0;
            s.answers == r.answers && s.dials == r.dials && s.tasks.dials == r.tasks.dials
  {
    hide Judge, Screen;
    SeatIsQuiet(r.(sched := r.sched.Insert(c.device, env.now)), c, env);
    hide Seat;
  }

  lemma SeatIsQuiet(r: Runtime, c: Candidate, env: Env)
    ensures var s := Seat(r, c, Outbound, env).0; s.answers == r.answers && s.dials == r.dials && s.tasks.dials == r.tasks.dials
  {
    hide Judge, Displace, AddSession;
    var v := Judge(r, c, Outbound);
    if v.Admit? {
      DisplaceIsQuiet(r, c.device, v.existing, env);
      AddIsQuiet(Displace(r, c.device, v.existing, env), c, env.now);
    }
  }

  lemma DisplaceIsQuiet(r: Runtime, d: DeviceId, e: Option<SessionId>, env: Env)
    requires e.Some? ==> e.value in r.sessions
    ensures var s := Displace(r, d, e, env); s.answers == r.answers && s.dials == r.dials && s.tasks == r.tasks
  {
  }

  lemma AddIsQuiet(r: Runtime, c: Candidate, now: Instant)
    ensures var s := AddSession(r, c, Outbound, now);
            s.answers == r.answers && s.dials == r.dials && s.tasks.dials == r.tasks.dials
  {
  }

  lemma TellAnswers(r: Runtime, d: DeviceId, rec: DialRecord, answer: Answer, env: Env)
    requires !rec.pairing && (answer.ToSession? ==> answer.device == d && OpenSession(r, d, answer.sid))
    ensures var s := TellWaiters(r, d, rec, answer, env);
            && s.dials == r.dials && s.tasks == r.tasks
            && if NoneOpen(r, d) then s.answers == r.answers + ToAll(rec.replies, answer)
               else exists sid :: OpenSession(r, d, sid) && s.answers == r.answers + ToAll(rec.replies, ToSession(d, sid))
  {
    CanonicalIsRegistered(r, d);
    CanonicalIsOpen(r, d);
    if !NoneOpen(r, d) {
      assert OpenSession(r, d, Canonical(r, d).value);
    }
    hide Canonical, NoneOpen, OpenSession;
  }

  /** A DIAL'S CALLERS. When a live dial for a session reports, it is over, and each of its callers is
      told once: of an open session with the device if there is one now, and otherwise of the
      dial's own error. */
  lemma DialSettles(c: Codec, w: World, d: DeviceId, token: nat, result: Result<Candidate, Code>, env: Env)
    requires Inv(w) && w.rt.running && (d, token) in w.rt.tasks.dials && d in w.rt.dials
    requires !w.rt.dials[d].cancelled && !w.rt.dials[d].pairing && Brings(w.rt, d, result)
    ensures var r, s := w.rt, Next(c, w, DialEnded(d, token, result, env)).rt;
            && s.dials == r.dials - {d} && s.tasks.dials == r.tasks.dials - {(d, token)}
            && Told(r, s, d, r.dials[d].replies, OwnError(TakeDial(r, d, token), w.store, result))
            && (if result.Ok? then OnlyAdds(r, s, result.value, Outbound) else s.sessions == r.sessions)
  {
    hide Inv, Agrees, DialDone, Told, OwnError;
    TokenOf(w, d, token);
    DoneSettles(w.rt, w.store, d, token, result, env);
  }

  lemma TokenOf(w: World, d: DeviceId, token: nat)
    requires Inv(w) && (d, token) in w.rt.tasks.dials
    ensures d in w.rt.dials && w.rt.dials[d].token == token && Agrees(w.rt.sessions, w.rt.sched.peers)
  {
  }

  /** The callers were each told once what the state afterwards calls for. */
  ghost predicate Told(r: Runtime, s: Runtime, d: DeviceId, replies: seq<ReplyId>, error: Code) {
    if NoneOpen(s, d) then s.answers == r.answers + ToAll(replies, Refused(error))
    else exists sid :: OpenSession(s, d, sid) && s.answers == r.answers + ToAll(replies, ToSession(d, sid))
  }

  lemma DoneSettles(r: Runtime, store: Store, d: DeviceId, token: nat, result: Result<Candidate, Code>, env: Env)
    requires Agrees(r.sessions, r.sched.peers) && d in r.dials && r.dials[d].token == token
    requires !r.dials[d].cancelled && !r.dials[d].pairing && Brings(r, d, result)
    ensures var s := DialDone(r, store, d, token, result, env);
            && s.dials == r.dials - {d} && s.tasks.dials == r.tasks.dials - {(d, token)}
            && Told(r, s, d, r.dials[d].replies, OwnError(TakeDial(r, d, token), store, result))
            && (if result.Ok? then OnlyAdds(r, s, result.value, Outbound) else s.sessions == r.sessions)
  {
    hide Existing, OpenSession, NoneOpen, SettleDial, TellWaiters, OwnError, ToAll, Agrees, Unused;
    var r2, rec := TakeDial(r, d, token), r.dials[d];
    SettleAnswers(r2, store, d, result, env);
    var (r3, answer) := SettleDial(r2, store, d, false, result, env);
    TellAnswers(r3, d, rec, answer, env);
    TellKeepsSessions(r3, d, rec, answer, env);
    var s := TellWaiters(r3, d, rec, answer, env);
    SameNone(r3, s, d);
    if !NoneOpen(s, d) {
      var sid :| OpenSession(r3, d, sid) && s.answers == r3.answers + ToAll(rec.replies, ToSession(d, sid));
      SameOpenSession(r3, s, d, sid);
    } else if answer.ToSession? {
      OpenMeansSome(r3, d, answer.sid);
    }
  }

  lemma SameOpenSession(r: Runtime, s: Runtime, d: DeviceId, sid: SessionId)
    requires s.sessions == r.sessions && s.closed == r.closed
    ensures OpenSession(r, d, sid) <==> OpenSession(s, d, sid)
  {
  }

  lemma OpenMeansSome(r: Runtime, d: DeviceId, sid: SessionId)
    requires OpenSession(r, d, sid)
    ensures !NoneOpen(r, d)
  {
  }

  /** A dial that was cancelled tells nobody anything; the connection it brings is closed. */
  lemma CancelledDialEnds(c: Codec, w: World, d: DeviceId, token: nat, result: Result<Candidate, Code>, env: Env)
    requires Inv(w) && w.rt.running && (d, token) in w.rt.tasks.dials && d in w.rt.dials && w.rt.dials[d].cancelled
    ensures var r, s := w.rt, Next(c, w, DialEnded(d, token, result, env)).rt;
            && s.dials == r.dials - {d} && s.answers == r.answers && s.sessions == r.sessions && s.pending == r.pending
            && s.sched == r.sched && s.closed == r.closed + if result.Ok? then {result.value.conn} else {}
  {
    hide Inv;
    TokenOf(w, d, token);
  }

  // ----- pairings -----

  /** Why a connection cannot be registered for pairing, in the order in which it is found out. */
  function PairingRefusal(r: Runtime, store: Store, c: Candidate): Option<Code> {
    if c.device in store.decisions || store.Generation(c.device) != c.generation then Some(PeerNotTrusted)
    else if |r.pending| >= r.config.maxPending || r.tasks.Owned() >= 1023 then Some(CapacityExceeded)
    else if r.nextPairing >= U64_MAX then Some(Internal)
    else None
  }

  /** A connection for pairing is registered under a new identifier and run by a task of its own, or
      closed. */
  ghost predicate Paired(r: Runtime, s: Runtime, store: Store, c: Candidate, origin: Origin) {
    if PairingRefusal(r, store, c).None?
    then && s.pending == r.pending[r.nextPairing := PendingRecord(c.device, c.conn, origin, None)]
         && s.tasks.pairings == r.tasks.pairings[r.nextPairing := Holder(c.device, c.conn)]
         && s.nextPairing == r.nextPairing + 1 && s.closed == r.closed
    else s.pending == r.pending && s.tasks.pairings == r.tasks.pairings && s.closed == r.closed + {c.conn}
  }

  lemma PendingIsPaired(r: Runtime, store: Store, c: Candidate, origin: Origin)
    ensures Paired(r, RegisterPending(r, store, c, origin).0, store, c, origin)
    ensures RegisterPending(r, store, c, origin).1 == match PairingRefusal(r, store, c)
                                                      case None => Ok(r.nextPairing)
                                                      case Some(code) => Err(code)
  {
    hide Tasks.Owned;
  }

  lemma PendingIsQuiet(r: Runtime, store: Store, c: Candidate, origin: Origin)
    ensures var s := RegisterPending(r, store, c, origin).0;
            && s.answers == r.answers && s.dials == r.dials && s.sessions == r.sessions
            && s.tasks.dials == r.tasks.dials && s.tasks.accept == r.tasks.accept && s.sched == r.sched
  {
    hide Tasks.Owned, Store.Generation;
  }

  function PairingAnswer(r: Runtime, store: Store, c: Candidate): Answer {
    match PairingRefusal(r, store, c)
    case None => ToPairing(r.nextPairing)
    case Some(code) => Refused(code)
  }

  /** When a live dial for pairing brings a pairable connection, each caller is told of the pairing it
      opens, or of the reason there is none. */
  lemma PairingDialSettles(c: Codec, w: World, d: DeviceId, token: nat, newcomer: Candidate, env: Env)
    requires Inv(w) && w.rt.running && (d, token) in w.rt.tasks.dials && d in w.rt.dials
    requires !w.rt.dials[d].cancelled && w.rt.dials[d].pairing && newcomer.Pairable?
    ensures var r, s := w.rt, Next(c, w, DialEnded(d, token, Ok(newcomer), env)).rt;
            var r2 := TakeDial(r, d, token);
            && s.dials == r.dials - {d} && Paired(r2, s, w.store, newcomer, Outbound)
            && s.answers == r.answers + ToAll(r.dials[d].replies, PairingAnswer(r2, w.store, newcomer))
  {
    hide Inv, RegisterPending, ToAll, PairingRefusal, Paired;
    TokenOf(w, d, token);
    PendingIsPaired(TakeDial(w.rt, d, token), w.store, newcomer, Outbound);
    PendingIsQuiet(TakeDial(w.rt, d, token), w.store, newcomer, Outbound);
    var r2, rec := TakeDial(w.rt, d, token), w.rt.dials[d];
    var (r3, answer) := SettleDial(r2, w.store, d, true, Ok(newcomer), env);
    PairedStays(r2, r3, w.store, newcomer, rec.replies, answer);
  }

  lemma PairedStays(r: Runtime, s: Runtime, store: Store, c: Candidate, replies: seq<ReplyId>, answer: Answer)
    ensures Paired(r, s, store, c, Outbound) ==> Paired(r, AnswerAll(s, replies, answer), store, c, Outbound)
  {
  }

  /** One that fails, or brings a connection of the other kind, opens nothing, and says so. */
  lemma PairingDialFails(c: Codec, w: World, d: DeviceId, token: nat, result: Result<Candidate, Code>, env: Env)
    requires Inv(w) && w.rt.running && (d, token) in w.rt.tasks.dials && d in w.rt.dials
    requires !w.rt.dials[d].cancelled && w.rt.dials[d].pairing && (result.Ok? ==> result.value.Authorized?)
    ensures var r, s := w.rt, Next(c, w, DialEnded(d, token, result, env)).rt;
            && s.dials == r.dials - {d} && s.pending == r.pending && s.sessions == r.sessions && s.sched == r.sched
            && s.closed == r.closed + (if result.Ok? then {result.value.conn} else {})
            && s.answers == r.answers + ToAll(r.dials[d].replies, Refused(if result.Ok? then Internal else result.error))
  {
    hide Inv, ToAll, RegisterSession, RegisterPending;
    TokenOf(w, d, token);
  }

  /** An inbound connection for pairing is registered or closed, and nobody is told. */
  lemma InboundPairing(c: Codec, w: World, newcomer: Candidate, env: Env)
    requires Inv(w) && w.rt.running && w.rt.tasks.accept > 0 && newcomer.Pairable?
    ensures var r, s := w.rt, Next(c, w, Incoming(Ok(newcomer), env)).rt;
            && Paired(r.(tasks := r.tasks.(accept := r.tasks.accept - 1)), s, w.store, newcomer, Inbound)
            && s.answers == r.answers && s.dials == r.dials && s.sessions == r.sessions && s.sched == r.sched
            && s.tasks.accept == r.tasks.accept
  {
    hide Inv, RegisterPending;
    PendingIsPaired(w.rt.(tasks := w.rt.tasks.(accept := w.rt.tasks.accept - 1)), w.store, newcomer, Inbound);
    PendingIsQuiet(w.rt.(tasks := w.rt.tasks.(accept := w.rt.tasks.accept - 1)), w.store, newcomer, Inbound);
  }

  /** A human decision reaches the pairing once; an acceptance only while the scheduler has room for all
      that were accepted. A pairing whose task no longer listens is given up. */
  lemma ConfirmResolves(c: Codec, w: World, pid: PairingId, accepted: bool, delivered: bool)
    requires w.rt.running
    ensures var r, s := w.rt, Next(c, w, ConfirmPairing(pid, accepted, delivered)).rt;
            var may := pid in r.pending && r.pending[pid].resolving.None?
                       && (accepted ==> |r.sched.peers| + |Resolving(r)| < 4096);
            && s.(pending := r.pending) == r
            && (!may ==> s.pending == r.pending)
            && (may && delivered ==> s.pending == r.pending[pid := r.pending[pid].(resolving := Some(accepted))])
            && (may && !delivered ==> s.pending == r.pending - {pid})
  {
    hide Resolving;
  }

  // ----- withdrawing, disconnecting, stopping -----

  /** WITHDRAWAL. A revoke or forget that reached the journal closes exactly the connections of that
      peer's sessions and pairings, removes exactly those and its scheduler entry, and cancels its
      dial, telling every caller; nothing of any other peer changes. One that did not reach the
      journal changes nothing. */
  lemma WithdrawalIsExact(c: Codec, w: World, d: DeviceId, forget: bool, io: Persist)
    requires w.rt.running
    ensures var m := if forget then Forget(d) else Revoke(d);
            var r, s := w.rt, Next(c, w, if forget then ForgetPeer(d, io) else RevokePeer(d, io)).rt;
            if Commit(c, w.store, m, None, io).1.Err? then s == r
            else
              && (forall sid :: sid in s.sessions <==> sid in r.sessions && r.sessions[sid].device != d)
              && (forall sid | sid in s.sessions :: s.sessions[sid] == r.sessions[sid])
              && (forall pid :: pid in s.pending <==> pid in r.pending && r.pending[pid].device != d)
              && (forall pid | pid in s.pending :: s.pending[pid] == r.pending[pid])
              && (forall conn :: conn in s.closed <==> conn in r.closed || BelongsTo(r, d, conn))
              && d !in s.sched.peers && (forall x | x != d :: x in s.sched.peers <==> x in r.sched.peers)
              && (forall x | x in s.sched.peers :: s.sched.peers[x] == r.sched.peers[x])
              && s.dials.Keys == r.dials.Keys && (forall x | x in r.dials && x != d :: s.dials[x] == r.dials[x])
              && (d in r.dials ==> s.dials[d] == r.dials[d].(cancelled := true, replies := []))
              && s.answers == r.answers + (if d in r.dials then ToAll(r.dials[d].replies, Refused(PeerNotTrusted)) else [])
              && s.tasks == r.tasks
  {
    hide Commit, ToAll, CancelDial, Purge, BelongsTo;
    CancelIsExact(w.rt, d, Refused(PeerNotTrusted));
    BelongsStill(w.rt, CancelDial(w.rt, d, Refused(PeerNotTrusted)), d);
    PurgeIsExact(CancelDial(w.rt, d, Refused(PeerNotTrusted)), d);
  }

  lemma BelongsStill(r: Runtime, s: Runtime, d: DeviceId)
    requires s.sessions == r.sessions && s.pending == r.pending
    ensures forall conn :: BelongsTo(r, d, conn) <==> BelongsTo(s, d, conn)
  {
  }

  /** The connection of a session or of a pairing with the peer. */
  ghost predicate BelongsTo(r: Runtime, d: DeviceId, conn: ConnId) {
    || (exists sid :: sid in r.sessions && r.sessions[sid].device == d && r.sessions[sid].conn == conn)
    || (exists pid :: pid in r.pending && r.pending[pid].device == d && r.pending[pid].conn == conn)
  }

  lemma PurgeIsExact(r: Runtime, d: DeviceId)
    ensures var s := Purge(r, d);
            && (forall sid :: sid in s.sessions <==> sid in r.sessions && r.sessions[sid].device != d)
            && (forall sid | sid in s.sessions :: s.sessions[sid] == r.sessions[sid])
            && (forall pid :: pid in s.pending <==> pid in r.pending && r.pending[pid].device != d)
            && (forall pid | pid in s.pending :: s.pending[pid] == r.pending[pid])
            && (forall conn :: conn in s.closed <==> conn in r.closed || BelongsTo(r, d, conn))
            && s.sched.peers == r.sched.peers - {d}
            && s.dials == r.dials && s.answers == r.answers && s.tasks == r.tasks
  {
  }

  /** DISCONNECTING removes that one session, closes its connection, puts the peer to rest and cancels a
      dial to it, telling every caller. */
  lemma DisconnectIsExact(c: Codec, w: World, sid: SessionId, now: Instant)
    requires Inv(w) && w.rt.running && sid in w.rt.sessions
    ensures var r, s, d := w.rt, Next(c, w, DisconnectSession(sid, now)).rt, w.rt.sessions[sid].device;
            && s.sessions == r.sessions - {sid} && s.closed == r.closed + {r.sessions[sid].conn} && s.pending == r.pending
            && s.tasks == r.tasks && s.sched.peers.Keys == r.sched.peers.Keys
            && d in s.sched.peers && s.sched.peers[d].suspended && s.sched.peers[d].due.None? && s.sched.peers[d].state == Suspended
            && (forall x | x in r.sched.peers && x != d :: s.sched.peers[x] == r.sched.peers[x])
            && s.dials.Keys == r.dials.Keys && (forall x | x in r.dials && x != d :: s.dials[x] == r.dials[x])
            && (d in r.dials ==> s.dials[d] == r.dials[d].(cancelled := true, replies := []))
            && s.answers == r.answers + if d in r.dials then ToAll(r.dials[d].replies, Refused(ConnectionFailed)) else []
  {
    hide Inv, ToAll, CancelDial, Disconnect;
    ManagedSession(w, sid);
    CancelIsExact(w.rt, w.rt.sessions[sid].device, Refused(ConnectionFailed));
    DisconnectShape(w.rt, sid, now);
  }

  /** Cancelling a dial touches only its own record, and tells its callers. */
  lemma CancelIsExact(r: Runtime, d: DeviceId, answer: Answer)
    ensures var s := CancelDial(r, d, answer);
            && s == r.(dials := s.dials, answers := s.answers)
            && s.dials.Keys == r.dials.Keys && (forall x | x in r.dials && x != d :: s.dials[x] == r.dials[x])
            && (d in r.dials ==> s.dials[d] == r.dials[d].(cancelled := true, replies := []))
            && s.answers == r.answers + if d in r.dials then ToAll(r.dials[d].replies, answer) else []
  {
  }

  lemma DisconnectShape(r: Runtime, sid: SessionId, now: Instant)
    requires sid in r.sessions && r.sessions[sid].device in r.sched.peers
    ensures var s, d := Disconnect(r, sid, now), r.sessions[sid].device;
            var r1 := CancelDial(r, d, Refused(ConnectionFailed));
            && s == r1.(sessions := r1.sessions - {sid}, closed := r1.closed + {r.sessions[sid].conn}, sched := s.sched)
            && s.sched == r1.sched.Set(d, r.sched.peers[d].Suspend().Lose(now, 0))
  {
    CancelIsExact(r, r.sessions[sid].device, Refused(ConnectionFailed));
    hide CancelDial, ToAll;
  }

  lemma ManagedSession(w: World, sid: SessionId)
    requires Inv(w) && sid in w.rt.sessions
    ensures w.rt.sessions[sid].device in w.rt.sched.peers && w.rt.sched.peers[w.rt.sessions[sid].device].sessionId == Some(sid)
  {
  }

  /** STOPPING closes every registered connection, empties every registry, refuses every caller, and is
      the end: nothing happens afterwards. */
  lemma StopIsFinal(c: Codec, w: World, e: Event)
    requires w.rt.running
    ensures var r, t := w.rt, Next(c, w, Stop);
            var s := t.rt;
            && !s.running && s.sessions == map[] && s.pending == map[] && s.sched.peers == map[]
            && (forall sid | sid in r.sessions :: r.sessions[sid].conn in s.closed)
            && (forall pid | pid in r.pending :: r.pending[pid].conn in s.closed)
            && s.dials.Keys == r.dials.Keys && (forall d | d in r.dials :: s.dials[d].cancelled && s.dials[d].replies == [])
            && s.answers == r.answers + ToAll(Waiters(r.dials, 0, ID_LIMIT), Refused(ShuttingDown))
            && Next(c, t, e) == t
  {
    hide Waiters, ToAll;
  }

  // ----- commands and the timer -----

  /** A dial to the device can be joined, or a new one started. */
  predicate CanDial(r: Runtime, d: DeviceId, env: Env) {
    if d in r.dials then !r.dials[d].cancelled && !r.dials[d].pairing && |r.dials[d].replies| < 16
    else |r.dials| < r.config.maxDials && r.tasks.Owned() < 1024 && env.noRoute.None? && r.nextDial < U64_MAX
  }

  /** Why it cannot. */
  function DialError(r: Runtime, d: DeviceId, env: Env): Code {
    if d in r.dials || |r.dials| >= r.config.maxDials || r.tasks.Owned() >= 1024 then CapacityExceeded
    else if env.noRoute.Some? then env.noRoute.value
    else Internal
  }

  /** The dials with one more to the device, if there is none yet. */
  function WithDial(r: Runtime, d: DeviceId): Dials {
    if d in r.dials then r.dials else r.dials[d := DialRecord(r.nextDial, false, [], false)]
  }

  ghost predicate Dialling(r: Runtime, s: Runtime, d: DeviceId) {
    && s.answers == r.answers && s.dials == WithDial(r, d)
    && s.tasks.dials == (if d in r.dials then r.tasks.dials else r.tasks.dials + {(d, r.nextDial)})
  }

  lemma StartDialExact(r: Runtime, d: DeviceId, env: Env)
    ensures var (s, result) := StartDial(r, d, false, env);
            if CanDial(r, d, env) then result == Ok(None) && Dialling(r, s, d) && s.sched == MarkDialling(r, d).sched
            else s == r && result == Err(DialError(r, d, env))
  {
    hide MarkDialling, Tasks.Owned;
    MarksAreQuiet(r, d, Internal, env);
    MarksAreQuiet(AddDial(r, d, false), d, Internal, env);
  }

  lemma MarksAreQuiet(r: Runtime, d: DeviceId, code: Code, env: Env)
    ensures var s, t := MarkDialling(r, d), MarkFailed(r, d, code, env);
            && s == r.(sched := s.sched) && t == r.(sched := t.sched)
            && (forall a: Runtime | a.sched == r.sched :: MarkDialling(a, d).sched == s.sched)
            && s.sched.peers.Keys == t.sched.peers.Keys == r.sched.peers.Keys
            && (d in r.sched.peers ==> s.sched.peers[d].suspended == t.sched.peers[d].suspended == r.sched.peers[d].suspended)
  {
  }

  /** Where the supervisor stands when it comes to dialling for a session: the peer managed, and awake
      if a person asks. */
  function Prepared(r: Runtime, d: DeviceId, manual: bool, env: Env): Runtime
    requires r.sched.HasRoom(d)
  {
    var r1 := r.(sched := r.sched.Insert(d, env.now));
    if manual then SetPeer(r1, d, r1.sched.peers[d].Resume(env.now)) else r1
  }

  lemma StartExact(r: Runtime, store: Store, d: DeviceId, manual: bool, env: Env)
    requires r.running && d != r.config.self && NoneOpen(r, d)
    ensures var (s, result) := StartOutbound(r, store, d, false, manual, env);
            && (result.Ok? <==> store.IsTrusted(d) && r.sched.HasRoom(d) && CanDial(r, d, env))
            && (result.Ok? ==> result == Ok(None) && Dialling(r, s, d) && s.sched == MarkDialling(Prepared(r, d, manual, env), d).sched)
            && (result.Err? ==>
                  && s.dials == r.dials && s.answers == r.answers && s.tasks == r.tasks && NoneOpen(s, d)
                  && result.error == if !store.IsTrusted(d) then PeerNotTrusted
                                     else if !r.sched.HasRoom(d) then CapacityExceeded else DialError(r, d, env))
  {
    hide Canonical, NoneOpen, StartDial, MarkDialling, Tasks.Owned, Dialling;
    CanonicalIsRegistered(r, d);
    StartKeepsSessions(r, store, d, false, manual, env);
    SameNone(r, StartOutbound(r, store, d, false, manual, env).0, d);
    if r.sched.HasRoom(d) {
      var r1, r2 := r.(sched := r.sched.Insert(d, env.now)), Prepared(r, d, manual, env);
      SameNone(r, r1, d);
      SameNone(r, r2, d);
      CanonicalIsRegistered(r1, d);
      CanonicalIsRegistered(r2, d);
      StartDialExact(r2, d, env);
      PreparedDials(r, r2, StartDial(r2, d, false, env).0, d, env);
    }
  }

  lemma PreparedDials(r: Runtime, r2: Runtime, s: Runtime, d: DeviceId, env: Env)
    requires r2 == r.(sched := r2.sched)
    ensures (Dialling(r, s, d) <==> Dialling(r2, s, d)) && DialError(r, d, env) == DialError(r2, d, env)
    ensures CanDial(r, d, env) <==> CanDial(r2, d, env)
  {
  }

  /** What a caller is told who gets neither a session nor a dial. */
  function ConnectError(r: Runtime, store: Store, d: DeviceId, env: Env): Code {
    if d == r.config.self then InvalidRequest
    else if !store.IsTrusted(d) then PeerNotTrusted
    else if !r.sched.HasRoom(d) then CapacityExceeded
    else DialError(r, d, env)
  }

  /** CONNECTING. Whoever asks for a device with which a session is open is told of it. Otherwise, if the
      device is another one and trusted and there is room and a route, the caller waits on the one dial
      to it, and the peer rests no more; and if not, it is told the first thing that was missing. */
  lemma ConnectIsExact(c: Codec, w: World, d: DeviceId, reply: ReplyId, env: Env)
    requires Inv(w) && w.rt.running
    ensures var r, s := w.rt, Next(c, w, Dial(d, false, reply, env)).rt;
            if d != r.config.self && !NoneOpen(r, d) then
              s.dials == r.dials && exists sid :: OpenSession(r, d, sid) && s.answers == r.answers + [(reply, ToSession(d, sid))]
            else if d != r.config.self && w.store.IsTrusted(d) && r.sched.HasRoom(d) && CanDial(r, d, env) then
              && s.answers == r.answers && d in s.sched.peers && !s.sched.peers[d].suspended
              && s.dials == (var ds := WithDial(r, d); ds[d := ds[d].(replies := ds[d].replies + [reply])])
            else
              s.dials == r.dials && s.answers == r.answers + [(reply, Refused(ConnectError(r, w.store, d, env)))]
  {
    hide Inv;
    SpawnExact(w.rt, w.store, d, reply, env) by {
      assert Agrees(w.rt.sessions, w.rt.sched.peers) && AllAuthorized(w.rt.sessions, w.store) by { ConsequencesOfInv(w); }
    }
    hide SpawnOutbound, NoneOpen, OpenSession, Tasks.Owned;
  }

  lemma ConsequencesOfInv(w: World)
    requires Inv(w)
    ensures Agrees(w.rt.sessions, w.rt.sched.peers) && AllAuthorized(w.rt.sessions, w.store)
  {
  }

  lemma SpawnExact(r: Runtime, store: Store, d: DeviceId, reply: ReplyId, env: Env)
    requires Agrees(r.sessions, r.sched.peers) && AllAuthorized(r.sessions, store) && r.running
    ensures var s := SpawnOutbound(r, store, d, false, Some(reply), env);
            if d != r.config.self && !NoneOpen(r, d) then
              s.dials == r.dials && exists sid :: OpenSession(r, d, sid) && s.answers == r.answers + [(reply, ToSession(d, sid))]
            else if d != r.config.self && store.IsTrusted(d) && r.sched.HasRoom(d) && CanDial(r, d, env) then
              && s.answers == r.answers && d in s.sched.peers && !s.sched.peers[d].suspended
              && s.dials == (var ds := WithDial(r, d); ds[d := ds[d].(replies := ds[d].replies + [reply])])
            else
              s.dials == r.dials && s.answers == r.answers + [(reply, Refused(ConnectError(r, store, d, env)))]
  {
    hide StartOutbound, NoneOpen, OpenSession, Canonical, Tasks.Owned, MarkFailed, Agrees, AllAuthorized, MarkDialling;
    var (s, result) := StartOutbound(r, store, d, false, true, env);
    ToOne(reply);
    if d == r.config.self {
      SelfRefused(r, store, env);
      MarksAreQuiet(s, d, InvalidRequest, env);
    } else if !NoneOpen(r, d) {
      ToldAtOnce(r, store, d, env);
    } else {
      StartExact(r, store, d, true, env);
      if result.Ok? {
        AwakeNow(r, d, env);
      } else {
        MarksAreQuiet(s, d, result.error, env);
      }
    }
  }

  lemma SelfRefused(r: Runtime, store: Store, env: Env)
    requires r.running
    ensures StartOutbound(r, store, r.config.self, false, true, env) == (r, Err(InvalidRequest))
  {
  }

  lemma ToOne(reply: ReplyId)
    ensures forall answer :: ToAll(AsReplies(Some(reply)), answer) == [(reply, answer)]
  {
  }

  lemma AwakeNow(r: Runtime, d: DeviceId, env: Env)
    requires r.sched.HasRoom(d)
    ensures var s := MarkDialling(Prepared(r, d, true, env), d); d in s.sched.peers && !s.sched.peers[d].suspended
  {
  }

  lemma ToldAtOnce(r: Runtime, store: Store, d: DeviceId, env: Env)
    requires Agrees(r.sessions, r.sched.peers) && AllAuthorized(r.sessions, store) && r.running && d != r.config.self && !NoneOpen(r, d)
    ensures var (s, result) := StartOutbound(r, store, d, false, true, env);
            && s.answers == r.answers && s.dials == r.dials
            && result.Ok? && result.value.Some? && OpenSession(r, d, result.value.value)
  {
    SessionsAreFit(r, store, d);
    CanonicalIsRegistered(r, d);
    var r1 := r.(sched := r.sched.Insert(d, env.now));
    SameNone(r, r1, d);
    CanonicalIsRegistered(r1, d);
    var r2 := SetPeer(r1, d, r1.sched.peers[d].Resume(env.now));
    SameNone(r, r2, d);
    CanonicalIsRegistered(r2, d);
    CanonicalIsOpen(r2, d);
    SameOpenSession(r, r2, d, Canonical(r2, d).value);
    hide Canonical, NoneOpen, OpenSession, Agrees, AllAuthorized, StartDial;
  }

  /** THE TIMER dials the peer it takes if it is trusted, has no open session, and a dial is possible;
      it tells nobody anything. */
  lemma TimerIsExact(c: Codec, w: World, d: DeviceId, env: Env)
    requires w.rt.running && w.rt.sched.Pick(env.now) == Some(d) && |w.rt.dials| < w.rt.config.maxDials
    ensures var r, s := w.rt, Next(c, w, Timer(env)).rt;
            && s.answers == r.answers
            && s.dials == if d != r.config.self && w.store.IsTrusted(d) && NoneOpen(r, d) && CanDial(r, d, env)
                          then WithDial(r, d) else r.dials
  {
    var base := w.rt.(sched := w.rt.sched.TakeDue(env.now));
    CrossDial.TakenKeys(w.rt.sched, env.now);
    SameNone(w.rt, base, d);
    TimerSpawn(base, w.store, d, env);
    hide SpawnOutbound, NoneOpen, Tasks.Owned;
  }

  lemma TimerSpawn(r: Runtime, store: Store, d: DeviceId, env: Env)
    requires r.running && d in r.sched.peers
    ensures var s := SpawnOutbound(r, store, d, false, None, env);
            && s.answers == r.answers
            && s.dials == if d != r.config.self && store.IsTrusted(d) && NoneOpen(r, d) && CanDial(r, d, env)
                          then WithDial(r, d) else r.dials
  {
    hide StartOutbound, NoneOpen, Canonical, Tasks.Owned, MarkFailed, MarkDialling;
    var (s, result) := StartOutbound(r, store, d, false, false, env);
    assert forall answer :: ToAll(AsReplies(None), answer) == [];
    if d == r.config.self || !store.IsTrusted(d) {
      RefusedAtOnce(r, store, d, env);
    } else if NoneOpen(r, d) {
      StartExact(r, store, d, false, env);
    } else {
      OpenAtOnce(r, store, d, env);
    }
    if result.Err? {
      MarksAreQuiet(s, d, result.error, env);
    } else if d in s.dials {
      assert s.dials[d].replies + [] == s.dials[d].replies;
      assert s.dials[d := s.dials[d]] == s.dials;
    }
  }

  lemma RefusedAtOnce(r: Runtime, store: Store, d: DeviceId, env: Env)
    requires r.running && (d == r.config.self || !store.IsTrusted(d))
    ensures var (s, result) := StartOutbound(r, store, d, false, false, env); s == r && result.Err?
  {
  }

  lemma OpenAtOnce(r: Runtime, store: Store, d: DeviceId, env: Env)
    requires r.running && d in r.sched.peers && d != r.config.self && store.IsTrusted(d) && !NoneOpen(r, d)
    ensures var (s, result) := StartOutbound(r, store, d, false, false, env); s == r && result.Ok? && result.value.Some?
  {
    CanonicalIsRegistered(r, d);
    assert r.(sched := r.sched.Insert(d, env.now)) == r;
  }

  /** A HINT wakes a peer without a route, unless it rests; it does nothing else. */
  lemma HintIsExact(c: Codec, w: World, d: DeviceId, now: Instant)
    requires Inv(w) && w.rt.running
    ensures var r, s := w.rt, Next(c, w, Hint(d, now)).rt;
            && s == r.(sched := s.sched) && s.sched.nextStart == r.sched.nextStart && s.sched.peers.Keys == r.sched.peers.Keys
            && (forall x | x in r.sched.peers && x != d :: s.sched.peers[x] == r.sched.peers[x])
            && (d in r.sched.peers ==>
                  var p, q := r.sched.peers[d], s.sched.peers[d];
                  if p.state == Unresolved && !p.suspended && p.sessionId.None? then q.due == Some(now) && q.state == Disconnected
                  else q == p)
  {
    hide Inv, Fire, SpawnOutbound, Withdraw, Disconnect, Confirm, IncomingDone, DialDone, PairingDone, SessionDone, Shutdown, Commit;
  }

  /** What a failed dial leaves with its peer: a retry after a delay if the network or capacity was at
      fault, a wait for a hint if there was no route, and a block otherwise. */
  predicate Recorded(p: Peer, q: Peer, code: Code, now: Instant) {
    && q.suspended == p.suspended && q.sessionId == p.sessionId
    && (code in {ConnectionFailed, CapacityExceeded} ==>
          q.state == Backoff && q.due.Some? && q.due.value >= now && q.attempt == Min(p.attempt + 1, U32_MAX))
    && (code == PeerUnresolved ==> q.state == Unresolved && q.due.None?)
    && (code !in {ConnectionFailed, CapacityExceeded, PeerUnresolved} ==> q.state == Blocked && q.due.None?)
  }

  lemma MarkRecords(r: Runtime, d: DeviceId, code: Code, env: Env)
    requires d in r.sched.peers
    ensures var s := MarkFailed(r, d, code, env); d in s.sched.peers && Recorded(r.sched.peers[d], s.sched.peers[d], code, env.now)
  {
  }

  lemma FailureIsRecorded(c: Codec, w: World, d: DeviceId, token: nat, code: Code, env: Env)
    requires Inv(w) && w.rt.running && (d, token) in w.rt.tasks.dials && d in w.rt.dials && d in w.rt.sched.peers
    requires !w.rt.dials[d].cancelled && !w.rt.dials[d].pairing && NoneOpen(w.rt, d)
    ensures var r, s := w.rt, Next(c, w, DialEnded(d, token, Err(code), env)).rt;
            && d in s.sched.peers && s.sessions == r.sessions && s.closed == r.closed
            && Recorded(r.sched.peers[d], s.sched.peers[d], code, env.now)
  {
    hide Inv, ToAll, RegisterSession, RegisterPending, MarkFailed, Recorded, Canonical, NoneOpen;
    TokenOf(w, d, token);
    var r2 := TakeDial(w.rt, d, token);
    SameNone(w.rt, r2, d);
    CanonicalIsRegistered(r2, d);
    MarkRecords(r2, d, code, env);
    MarksAreQuiet(r2, d, code, env);
  }

  /** So does a dial that could not be started, for a caller or for the timer. */
  lemma StartFailureIsRecorded(r: Runtime, store: Store, d: DeviceId, reply: Option<ReplyId>, env: Env)
    requires r.running && d != r.config.self && NoneOpen(r, d) && store.IsTrusted(d) && r.sched.HasRoom(d)
    requires d !in r.dials && !CanDial(r, d, env)
    ensures var s := SpawnOutbound(r, store, d, false, reply, env);
            && d in s.sched.peers
            && Recorded(Prepared(r, d, reply.Some?, env).sched.peers[d], s.sched.peers[d], DialError(r, d, env), env.now)
  {
    hide StartOutbound, NoneOpen, Canonical, Tasks.Owned, MarkFailed, Recorded, CanDial, DialError;
    StartExact(r, store, d, reply.Some?, env);
    var (s, result) := StartOutbound(r, store, d, false, reply.Some?, env);
    FailedStartIsPrepared(r, store, d, reply.Some?, env);
    CanonicalIsRegistered(s, d);
    MarkRecords(s, d, result.error, env);
  }

  lemma FailedStartIsPrepared(r: Runtime, store: Store, d: DeviceId, manual: bool, env: Env)
    requires r.running && d != r.config.self && NoneOpen(r, d) && store.IsTrusted(d) && r.sched.HasRoom(d)
    requires d !in r.dials && !CanDial(r, d, env)
    ensures StartOutbound(r, store, d, false, manual, env).0 == Prepared(r, d, manual, env)
    ensures d in Prepared(r, d, manual, env).sched.peers
  {
    hide Canonical, NoneOpen, StartDial, Tasks.Owned, DialError;
    var r1, r2 := r.(sched := r.sched.Insert(d, env.now)), Prepared(r, d, manual, env);
    CanonicalIsRegistered(r, d);
    SameNone(r, r1, d);
    SameNone(r, r2, d);
    CanonicalIsRegistered(r1, d);
    CanonicalIsRegistered(r2, d);
    StartDialExact(r2, d, env);
    PreparedDials(r, r2, r2, d, env);
  }

  /** A session that takes the place of an open one is no loss: the peer's backoff and the time it has
      been connected since stay as they are. */
  lemma SupersessionIsNoLoss(r: Runtime, store: Store, c: Candidate, origin: Origin, env: Env, sid: SessionId)
    requires Agrees(r.sessions, r.sched.peers) && Held(r.sessions, r.tasks.sessions, r.nextSession)
    requires sid in r.sessions && r.sessions[sid].device == c.device
    requires r.sessions[sid].conn !in r.closed && RegisterSession(r, store, c, origin, env).0.nextSession > r.nextSession
    ensures var p, s := r.sched.peers[c.device], RegisterSession(r, store, c, origin, env).0;
            && c.device in s.sched.peers && sid !in s.sessions
            && s.sched.peers[c.device] == p.(sessionId := Some(r.nextSession), state := Connected, due := None, lastFailure := None,
                                             connectedSince := if p.connectedSince.Some? then p.connectedSince else Some(env.now))
  {
    hide Existing, Screen;
    var base := r.(sched := r.sched.Insert(c.device, env.now));
    OneSessionEach(r, base, c.device);
    SeatSupersedes(base, c, origin, env, sid);
    hide Seat;
  }

  /** The entry of a peer whose open session is replaced by a new one. */
  predicate Superseded(r: Runtime, s: Runtime, d: DeviceId, sid: SessionId, now: Instant)
    requires d in r.sched.peers
  {
    && d in s.sched.peers && sid !in s.sessions
    && var p := r.sched.peers[d];
       s.sched.peers[d] == p.(sessionId := Some(r.nextSession), state := Connected, due := None, lastFailure := None,
                              connectedSince := if p.connectedSince.Some? then p.connectedSince else Some(now))
  }

  lemma AddSupersedes(r: Runtime, c: Candidate, origin: Origin, env: Env, sid: SessionId)
    requires sid in r.sessions && r.sessions[sid].conn !in r.closed && c.device in r.sched.peers && sid < r.nextSession
    ensures Superseded(r, AddSession(Displace(r, c.device, Some(sid), env), c, origin, env.now), c.device, sid, env.now)
  {
  }

  lemma CancelKeepsSeats(r: Runtime, d: DeviceId, answer: Answer)
    ensures CancelDial(r, d, answer).sessions == r.sessions && CancelDial(r, d, answer).sched == r.sched
  {
  }

  lemma SeatSupersedes(r: Runtime, c: Candidate, origin: Origin, env: Env, sid: SessionId)
    requires Existing(r, c.device) == Some(sid) && sid in r.sessions && r.sessions[sid].conn !in r.closed && c.device in r.sched.peers
    requires sid < r.nextSession
    ensures var s := Seat(r, c, origin, env).0;
            s.nextSession > r.nextSession ==> Superseded(r, s, c.device, sid, env.now)
  {
    hide Existing, Judge, AddSession, Displace, CancelDial;
    AddSupersedes(r, c, origin, env, sid);
    var s := AddSession(Displace(r, c.device, Some(sid), env), c, origin, env.now);
    CancelKeepsSeats(s, c.device, ToSession(c.device, Displace(r, c.device, Some(sid), env).nextSession));
  }

  /** A pairing's commit of trust changes no registry, and is refused if the peer was forgotten since the
      pairing read its generation. */
  lemma PairingCommitIsFenced(c: Codec, w: World, peer: TrustedPeer, generation: nat, io: Persist)
    requires w.rt.running
    ensures var t := Next(c, w, PairingCommits(peer, generation, io));
            && t.rt == w.rt && (w.store.Generation(peer.deviceId) != generation ==> t.store == w.store)
            && (t.store.IsTrusted(peer.deviceId) && !w.store.IsTrusted(peer.deviceId) ==>
                  && w.store.Generation(peer.deviceId) == generation && peer.deviceId !in w.store.decisions && io.Written?
                  && t.store.decisions == w.store.decisions[peer.deviceId := Trusted(peer)])
  {
  }

  /** How the end of its session leaves a peer. */
  predicate Lost(p: Peer, q: Peer, failure: Failure) {
    && q.sessionId.None? && q.suspended == p.suspended
    && (p.suspended ==> q.state == Suspended && q.due.None?)
    && (!p.suspended && failure in {Network, Capacity} ==> q.state == Backoff && q.due.Some?)
    && (!p.suspended && failure == NoRoute ==> q.state == Unresolved && q.due.None?)
    && (!p.suspended && failure !in {Network, Capacity, NoRoute} ==> q.state == Blocked && q.due.None?)
  }

  /** A session's task ends: its connection is closed; if the session was still registered it is removed,
      and its peer is dialled again, unless it rests or the failure forbids it. */
  lemma SessionEndIsExact(c: Codec, w: World, sid: SessionId, failure: Failure, env: Env)
    requires Inv(w) && w.rt.running && sid in w.rt.tasks.sessions
    ensures var r, s := w.rt, Next(c, w, SessionEnded(sid, failure, env)).rt;
            var d := r.tasks.sessions[sid].device;
            && s.sessions == r.sessions - {sid} && s.tasks.sessions == r.tasks.sessions - {sid}
            && s.closed == r.closed + {r.tasks.sessions[sid].conn} && s.dials == r.dials && s.answers == r.answers
            && (sid !in r.sessions ==> s.sched == r.sched)
            && (sid in r.sessions ==> d in r.sched.peers && d in s.sched.peers && Lost(r.sched.peers[d], s.sched.peers[d], failure))
  {
    hide Inv, Lost, Fire, SpawnOutbound, Remember, Withdraw, Disconnect, Confirm, IncomingDone, DialDone, PairingDone, SessionDone,
         Shutdown, Commit;
    EndedSession(w, sid);
    CrossDial.SessionDoneShape(w.rt, sid, failure, env);
    EndIsQuiet(w.rt, sid, failure, env);
    if sid in w.rt.sessions {
      EndRecords(w.rt, sid, failure, env);
    }
  }

  lemma EndedSession(w: World, sid: SessionId)
    requires Inv(w) && sid in w.rt.tasks.sessions
    ensures sid in w.rt.sessions ==>
              w.rt.sessions[sid].device == w.rt.tasks.sessions[sid].device && w.rt.sessions[sid].device in w.rt.sched.peers
  {
  }

  lemma EndIsQuiet(r: Runtime, sid: SessionId, failure: Failure, env: Env)
    requires sid in r.tasks.sessions
    ensures SessionDone(r, sid, failure, env).answers == r.answers
    ensures sid !in r.sessions ==> SessionDone(r, sid, failure, env).sched == r.sched
  {
  }

  lemma EndRecords(r: Runtime, sid: SessionId, failure: Failure, env: Env)
    requires sid in r.tasks.sessions && sid in r.sessions
    requires r.sessions[sid].device == r.tasks.sessions[sid].device && r.sessions[sid].device in r.sched.peers
    ensures var s, d := SessionDone(r, sid, failure, env), r.tasks.sessions[sid].device;
            d in s.sched.peers && Lost(r.sched.peers[d], s.sched.peers[d], failure)
  {
  }

  /** A connection that was accepted or came of a completed pairing leaves an open session with its peer,
      or is closed because something stood against it. */
  lemma AcceptedIsSeated(c: Codec, w: World, newcomer: Candidate, env: Env)
    requires Inv(w) && w.rt.running && w.rt.tasks.accept > 0 && newcomer.Authorized? && Unused(w.rt.sessions, newcomer.conn)
    ensures var r, s := w.rt, Next(c, w, Incoming(Ok(newcomer), env)).rt;
            && OnlyAdds(r, s, newcomer, Inbound)
            && (|| !NoneOpen(s, newcomer.device)
                || (newcomer.conn in s.closed && Refusable(r.(tasks := r.tasks.(accept := r.tasks.accept - 1)), w.store, newcomer)))
  {
    hide Inv, RegisterSession, Refusable, NoneOpen, OpenSession, Agrees, AllAuthorized;
    ConsequencesOfInv(w);
    var r1 := w.rt.(tasks := w.rt.tasks.(accept := w.rt.tasks.accept - 1));
    RegisterAnswers(r1, w.store, newcomer, Inbound, env);
    RegisterOnlyAdds(r1, w.store, newcomer, Inbound, env);
    var (r2, result) := RegisterSession(r1, w.store, newcomer, Inbound, env);
    if result.Ok? {
      OpenMeansSome(r2, newcomer.device, result.value);
      SameNone(r2, Next(c, w, Incoming(Ok(newcomer), env)).rt, newcomer.device);
    }
  }

  lemma PairedIsSeated(c: Codec, w: World, pid: PairingId, outcome: Option<Candidate>, env: Env)
    requires Inv(w) && w.rt.running && pid in w.rt.tasks.pairings && (outcome.Some? ==> Unused(w.rt.sessions, outcome.value.conn))
    ensures var r, s := w.rt, Next(c, w, PairingEnded(pid, outcome, env)).rt;
            var r1 := r.(tasks := r.tasks.(pairings := r.tasks.pairings - {pid}), pending := r.pending - {pid});
            && pid !in s.pending && pid !in s.tasks.pairings
            && (outcome.None? ==> s == Close(r1, r.tasks.pairings[pid].conn))
            && (outcome.Some? && pid !in r.pending ==> s == Close(r1, outcome.value.conn))
            && (outcome.Some? && pid in r.pending ==> OnlyAdds(r, s, outcome.value, r.pending[pid].origin))
            && (outcome.Some? && pid in r.pending ==>
                  || !NoneOpen(s, outcome.value.device)
                  || (outcome.value.conn in s.closed && Refusable(r1, w.store, outcome.value)))
  {
    hide Inv, RegisterSession, Refusable, NoneOpen, OpenSession, Agrees, AllAuthorized;
    ConsequencesOfInv(w);
    var r1 := w.rt.(tasks := w.rt.tasks.(pairings := w.rt.tasks.pairings - {pid}), pending := w.rt.pending - {pid});
    if outcome.Some? && pid in w.rt.pending {
      RegisterAnswers(r1, w.store, outcome.value, w.rt.pending[pid].origin, env);
      RegisterKeepsPending(r1, w.store, outcome.value, w.rt.pending[pid].origin, env);
      RegisterOnlyAdds(r1, w.store, outcome.value, w.rt.pending[pid].origin, env);
      var (r2, result) := RegisterSession(r1, w.store, outcome.value, w.rt.pending[pid].origin, env);
      if result.Ok? {
        OpenMeansSome(r2, outcome.value.device, result.value);
      }
    }
  }

  lemma RegisterKeepsPending(r: Runtime, store: Store, c: Candidate, origin: Origin, env: Env)
    ensures var s := RegisterSession(r, store, c, origin, env).0; s.pending == r.pending && s.tasks.pairings == r.tasks.pairings
  {
    hide Judge, Screen, Install, Displace, Sched.Insert;
    var base := r.(sched := r.sched.Insert(c.device, env.now));
    var v := Judge(base, c, origin);
    if v.Admit? {
      Connections.InstallKeepsPairings(base, c, origin, v.existing, env);
    }
  }

  /** Local clients are counted: one more while the limits allow it, one less when one leaves. */
  lemma ClientsAreCounted(c: Codec, w: World)
    requires w.rt.running
    ensures var r, s, t := w.rt, Next(c, w, IpcConnected).rt, Next(c, w, IpcEnded).rt;
            && s == r.(tasks := r.tasks.(ipc := r.tasks.ipc + if r.tasks.ipc < r.config.maxIpc && r.tasks.Owned() < 1024 then 1 else 0))
            && t == r.(tasks := r.tasks.(ipc := if r.tasks.ipc == 0 then 0 else r.tasks.ipc - 1))
  {
    hide Tasks.Owned;
  }

  /** A dial for pairing needs a device without a decision, no dial or pairing under way, and room. */
  predicate CanPair(r: Runtime, store: Store, d: DeviceId, env: Env) {
    && d != r.config.self && d !in store.decisions && d !in r.dials
    && |r.dials| < r.config.maxDials && r.tasks.Owned() < 1024 && env.slotFree
    && (forall pid | pid in r.pending :: r.pending[pid].device != d) && env.noRoute.None? && r.nextDial < U64_MAX
  }

  /** Why there cannot be one. */
  function PairError(r: Runtime, store: Store, d: DeviceId, env: Env): Code {
    if d == r.config.self then InvalidRequest
    else if store.IsTrusted(d) then PeerAlreadyTrusted
    else if d in store.decisions then PeerNotTrusted
    else if d in r.dials || |r.dials| >= r.config.maxDials || r.tasks.Owned() >= 1024 || !env.slotFree
            || (exists pid | pid in r.pending :: r.pending[pid].device == d) then CapacityExceeded
    else if env.noRoute.Some? then env.noRoute.value
    else Internal
  }

  /** ASKING TO PAIR. The caller waits on a new dial for pairing if there can be one, and is told the
      first thing in its way otherwise; nobody else's dial is joined. */
  lemma PairCommandIsExact(c: Codec, w: World, d: DeviceId, reply: ReplyId, env: Env)
    requires w.rt.running
    ensures var r, s := w.rt, Next(c, w, Dial(d, true, reply, env)).rt;
            && s.sessions == r.sessions && s.pending == r.pending && s.closed == r.closed
            && if CanPair(r, w.store, d, env)
               then s.answers == r.answers && s.dials == r.dials[d := DialRecord(r.nextDial, true, [reply], false)]
               else s.dials == r.dials && s.answers == r.answers + [(reply, Refused(PairError(r, w.store, d, env)))]
  {
    hide Tasks.Owned, MarkDialling, Canonical, MarkFailed;
    var r := w.rt;
    ToOne(reply);
    MarksAreQuiet(AddDial(r, d, true), d, Internal, env);
    if CanPair(r, w.store, d, env) {
      assert [] + [reply] == [reply];
    } else {
      PairRefused(r, w.store, d, env);
    }
  }

  lemma PairRefused(r: Runtime, store: Store, d: DeviceId, env: Env)
    requires r.running && !CanPair(r, store, d, env)
    ensures StartOutbound(r, store, d, true, true, env) == (r, Err(PairError(r, store, d, env)))
  {
    hide Tasks.Owned, MarkDialling, Canonical;
  }
}

/** LOCALITY. A step touches only the peers it is about: nothing registered for any other device, and
    none of its dial, its callers and its scheduler entry, changes. */
module Locality {
  import opened Common
  import opened Connectivity
  import opened TrustJournal
  import opened Supervisor
  import opened Registry
  import opened SupervisorRuns
  import Effects

  /** The devices an event is about. */
  ghost function About(w: World, e: Event): set<DeviceId> {
    var r := w.rt;
    match e
    case Timer(env) => if r.sched.Pick(env.now).Some? then {r.sched.Pick(env.now).value} else {}
    case Dial(d, _, _, _) => {d}
    case Hint(d, _) => {d}
    case RevokePeer(d, _) => {d}
    case ForgetPeer(d, _) => {d}
    case DisconnectSession(sid, _) => if sid in r.sessions then {r.sessions[sid].device} else {}
    case ConfirmPairing(pid, _, _) => if pid in r.pending then {r.pending[pid].device} else {}
    case Incoming(result, _) => Device(result)
    case DialEnded(d, _, result, _) => {d} + Device(result)
    case PairingEnded(pid, outcome, _) =>
      (if pid in r.pending then {r.pending[pid].device} else {}) + (if outcome.Some? then {outcome.value.device} else {})
    case SessionEnded(sid, _, _) => if sid in r.sessions then {r.sessions[sid].device} else {}
    case _ => {}
  }

  function Device(result: Result<Candidate, Code>): set<DeviceId> {
    if result.Ok? then {result.value.device} else {}
  }

  /** Nothing of `x` changed: its dial, its scheduler entry, its sessions and its pairings. */
  ghost predicate Untouched(r: Runtime, s: Runtime, x: DeviceId) {
    && SameEntry(r.dials, s.dials, x) && SameEntry(r.sched.peers, s.sched.peers, x)
    && SameSessionsOf(r, s, x) && SamePairingsOf(r, s, x)
  }

  predicate SameEntry<V(==)>(a: map<DeviceId, V>, b: map<DeviceId, V>, x: DeviceId) {
    (x in a <==> x in b) && (x in a ==> b[x] == a[x])
  }

  ghost predicate SameSessionsOf(r: Runtime, s: Runtime, x: DeviceId) {
    && (forall sid | sid in r.sessions && r.sessions[sid].device == x :: sid in s.sessions && s.sessions[sid] == r.sessions[sid])
    && (forall sid | sid in s.sessions && s.sessions[sid].device == x :: sid in r.sessions && s.sessions[sid] == r.sessions[sid])
  }

  ghost predicate SamePairingsOf(r: Runtime, s: Runtime, x: DeviceId) {
    && (forall pid | pid in r.pending && r.pending[pid].device == x :: pid in s.pending && s.pending[pid] == r.pending[pid])
    && (forall pid | pid in s.pending && s.pending[pid].device == x :: pid in r.pending && s.pending[pid] == r.pending[pid])
  }

  lemma UntouchedCompose(r: Runtime, s: Runtime, t: Runtime, x: DeviceId)
    requires Untouched(r, s, x) && Untouched(s, t, x)
    ensures Untouched(r, t, x)
  {
  }

  lemma Still(r: Runtime, s: Runtime, x: DeviceId)
    requires s.dials == r.dials && s.sched.peers == r.sched.peers && s.sessions == r.sessions && s.pending == r.pending
    ensures Untouched(r, s, x)
  {
  }

  lemma PeerTouchesOne(r: Runtime, d: DeviceId, p: Peer, x: DeviceId)
    requires x != d
    ensures Untouched(r, SetPeer(r, d, p), x)
  {
  }

  lemma MarksTouchOne(r: Runtime, d: DeviceId, code: Code, env: Env, x: DeviceId)
    requires x != d
    ensures Untouched(r, MarkDialling(r, d), x) && Untouched(r, MarkFailed(r, d, code, env), x)
    ensures Untouched(r, MarkLost(r, d, env.now, env.sample), x)
    ensures Untouched(r, r.(sched := r.sched.Insert(d, env.now)), x)
  {
    hide Untouched;
    Still(r, r, x);
    PeerTouchesOne(r, d, NewPeer(env.now), x);
    if d in r.sched.peers {
      PeerTouchesOne(r, d, r.sched.peers[d].Dialling(), x);
      PeerTouchesOne(r, d, r.sched.peers[d].Fail(Category(code), env.now, env.sample), x);
      PeerTouchesOne(r, d, r.sched.peers[d].Lose(env.now, env.sample), x);
    }
  }

  lemma CancelTouchesOne(r: Runtime, d: DeviceId, answer: Answer, x: DeviceId)
    requires x != d
    ensures Untouched(r, CancelDial(r, d, answer), x)
  {
  }

  lemma InstallTouchesOne(r: Runtime, c: Candidate, origin: Origin, e: Option<SessionId>, env: Env, x: DeviceId)
    requires x != c.device && Held(r.sessions, r.tasks.sessions, r.nextSession)
    requires e.Some? ==> e.value in r.sessions && r.sessions[e.value].device == c.device
    ensures Untouched(r, Install(Displace(r, c.device, e, env), c, origin, env), x)
  {
    hide CancelDial, Untouched;
    var base := Displace(r, c.device, e, env);
    DisplaceTouchesOne(r, c.device, e, env, x);
    AddTouchesOne(base, c, origin, env.now, x);
    var s := AddSession(base, c, origin, env.now);
    UntouchedCompose(r, base, s, x);
    CancelTouchesOne(s, c.device, ToSession(c.device, base.nextSession), x);
    UntouchedCompose(r, s, CancelDial(s, c.device, ToSession(c.device, base.nextSession)), x);
  }

  lemma DisplaceTouchesOne(r: Runtime, d: DeviceId, e: Option<SessionId>, env: Env, x: DeviceId)
    requires x != d && Held(r.sessions, r.tasks.sessions, r.nextSession)
    requires e.Some? ==> e.value in r.sessions && r.sessions[e.value].device == d
    ensures var s := Displace(r, d, e, env);
            Untouched(r, s, x) && s.nextSession == r.nextSession && r.nextSession !in s.sessions
  {
  }

  lemma AddTouchesOne(r: Runtime, c: Candidate, origin: Origin, now: Instant, x: DeviceId)
    requires x != c.device && r.nextSession !in r.sessions
    ensures Untouched(r, AddSession(r, c, origin, now), x)
  {
  }

  lemma RegisterTouchesOne(r: Runtime, store: Store, c: Candidate, origin: Origin, env: Env, x: DeviceId)
    requires x != c.device && Held(r.sessions, r.tasks.sessions, r.nextSession)
    ensures Untouched(r, RegisterSession(r, store, c, origin, env).0, x)
  {
    hide Untouched, Install, Displace, Existing, Screen;
    Still(r, Close(r, c.conn), x);
    MarksTouchOne(r, c.device, Internal, env, x);
    var base := r.(sched := r.sched.Insert(c.device, env.now));
    Still(base, Close(base, c.conn), x);
    UntouchedCompose(r, base, Close(base, c.conn), x);
    var v := Judge(base, c, origin);
    if v.Admit? {
      ExistingIsRegistered(base, c.device);
      var s := Install(Displace(base, c.device, v.existing, env), c, origin, env);
      InstallTouchesOne(base, c, origin, v.existing, env, x);
      UntouchedCompose(r, base, s, x);
    }
  }

  lemma PendingTouchesOne(r: Runtime, store: Store, c: Candidate, origin: Origin, x: DeviceId)
    requires x != c.device && r.nextPairing !in r.pending
    ensures Untouched(r, RegisterPending(r, store, c, origin).0, x)
  {
    hide RegisterPending, Effects.PairingRefusal;
    Effects.PendingIsPaired(r, store, c, origin);
    Effects.PendingIsQuiet(r, store, c, origin);
  }

  lemma SettleTouchesOne(r: Runtime, store: Store, d: DeviceId, pairing: bool, result: Result<Candidate, Code>, env: Env, x: DeviceId)
    requires x !in Device(result) && Held(r.sessions, r.tasks.sessions, r.nextSession) && r.nextPairing !in r.pending
    ensures Untouched(r, SettleDial(r, store, d, pairing, result, env).0, x)
  {
    hide Untouched, RegisterSession, RegisterPending;
    Still(r, r, x);
    if result.Ok? {
      RegisterTouchesOne(r, store, result.value, Outbound, env, x);
      PendingTouchesOne(r, store, result.value, Outbound, x);
      Still(r, Close(r, result.value.conn), x);
    }
  }

  lemma AnswersTouchNone(r: Runtime, s: Runtime, replies: seq<ReplyId>, answer: Answer, x: DeviceId)
    requires Untouched(r, s, x)
    ensures Untouched(r, AnswerAll(s, replies, answer), x)
  {
  }

  lemma TellTouchesOne(r: Runtime, d: DeviceId, rec: DialRecord, answer: Answer, env: Env, x: DeviceId)
    requires x != d
    ensures Untouched(r, TellWaiters(r, d, rec, answer, env), x)
  {
    hide Untouched, Canonical, MarkFailed, AnswerAll;
    Still(r, r, x);
    AnswersTouchNone(r, r, rec.replies, answer, x);
    if Canonical(r, d).Some? {
      AnswersTouchNone(r, r, rec.replies, ToSession(d, Canonical(r, d).value), x);
    } else if answer.Refused? {
      MarksTouchOne(r, d, answer.code, env, x);
      AnswersTouchNone(r, MarkFailed(r, d, answer.code, env), rec.replies, answer, x);
    }
  }

  lemma DialDoneTouches(r: Runtime, store: Store, d: DeviceId, token: nat, result: Result<Candidate, Code>, env: Env, x: DeviceId)
    requires x !in {d} + Device(result) && Held(r.sessions, r.tasks.sessions, r.nextSession) && r.nextPairing !in r.pending
    ensures Untouched(r, DialDone(r, store, d, token, result, env), x)
  {
    hide Untouched, SettleDial, TellWaiters;
    Still(r, DropResult(r.(tasks := r.tasks.(dials := r.tasks.dials - {(d, token)})), result), x);
    if d in r.dials && r.dials[d].token == token {
      var r2 := TakeDial(r, d, token);
      TakeTouchesOne(r, d, token, x);
      Still(r2, DropResult(r2, result), x);
      UntouchedCompose(r, r2, DropResult(r2, result), x);
      var (r3, answer) := SettleDial(r2, store, d, r.dials[d].pairing, result, env);
      SettleTouchesOne(r2, store, d, r.dials[d].pairing, result, env, x);
      UntouchedCompose(r, r2, r3, x);
      TellTouchesOne(r3, d, r.dials[d], answer, env, x);
      UntouchedCompose(r, r3, TellWaiters(r3, d, r.dials[d], answer, env), x);
    }
  }

  lemma TakeTouchesOne(r: Runtime, d: DeviceId, token: nat, x: DeviceId)
    requires x != d
    ensures Untouched(r, TakeDial(r, d, token), x)
  {
  }

  lemma StartDialTouchesOne(r: Runtime, d: DeviceId, pairing: bool, env: Env, x: DeviceId)
    requires x != d
    ensures Untouched(r, StartDial(r, d, pairing, env).0, x)
  {
    hide Untouched, MarkDialling, Busy, Tasks.Owned;
    Still(r, r, x);
    MarksTouchOne(r, d, Internal, env, x);
    var added := AddDial(r, d, pairing);
    AddDialTouchesOne(r, d, pairing, x);
    MarksTouchOne(added, d, Internal, env, x);
    UntouchedCompose(r, added, MarkDialling(added, d), x);
  }

  lemma AddDialTouchesOne(r: Runtime, d: DeviceId, pairing: bool, x: DeviceId)
    requires x != d
    ensures Untouched(r, AddDial(r, d, pairing), x)
  {
  }

  lemma StartTouchesOne(r: Runtime, store: Store, d: DeviceId, pairing: bool, manual: bool, env: Env, x: DeviceId)
    requires x != d
    ensures Untouched(r, StartOutbound(r, store, d, pairing, manual, env).0, x)
  {
    hide Untouched, StartDial, Canonical, Busy;
    Still(r, r, x);
    if DialRefusal(r, store, d, pairing).None? {
      StartDialTouchesOne(r, d, true, env, x);
      if !pairing {
        MarksTouchOne(r, d, Internal, env, x);
        var r1 := r.(sched := r.sched.Insert(d, env.now));
        PeerTouchesOne(r1, d, r1.sched.peers[d].Resume(env.now), x);
        var r2 := if manual then SetPeer(r1, d, r1.sched.peers[d].Resume(env.now)) else r1;
        Still(r1, r1, x);
        UntouchedCompose(r, r1, r2, x);
        StartDialTouchesOne(r2, d, false, env, x);
        UntouchedCompose(r, r2, StartDial(r2, d, false, env).0, x);
      }
    }
  }

  lemma SpawnTouchesOne(r: Runtime, store: Store, d: DeviceId, pairing: bool, reply: Option<ReplyId>, env: Env, x: DeviceId)
    requires x != d
    ensures Untouched(r, SpawnOutbound(r, store, d, pairing, reply, env), x)
  {
    hide Untouched, StartOutbound, Canonical, MarkFailed, AnswerAll;
    StartTouchesOne(r, store, d, pairing, reply.Some?, env, x);
    var (s, result) := StartOutbound(r, store, d, pairing, reply.Some?, env);
    match result {
      case Ok(Some(sid)) => AnswersTouchNone(r, s, AsReplies(reply), ToSession(d, sid), x);
      case Ok(None) =>
        AnswersTouchNone(r, s, AsReplies(reply), Refused(Internal), x);
        if d in s.dials {
          WaitTouchesOne(s, d, AsReplies(reply), x);
          UntouchedCompose(r, s, AddWaiters(s, d, AsReplies(reply)), x);
        }
      case Err(code) =>
        AnswersTouchNone(r, s, AsReplies(reply), Refused(code), x);
        MarksTouchOne(s, d, code, env, x);
        UntouchedCompose(r, s, MarkFailed(s, d, code, env), x);
        AnswersTouchNone(r, MarkFailed(s, d, code, env), AsReplies(reply), Refused(code), x);
    }
  }

  lemma WaitTouchesOne(r: Runtime, d: DeviceId, replies: seq<ReplyId>, x: DeviceId)
    requires x != d && d in r.dials
    ensures Untouched(r, AddWaiters(r, d, replies), x)
  {
  }

  lemma FireTouches(r: Runtime, store: Store, env: Env, x: DeviceId)
    requires r.sched.Pick(env.now) != Some(x)
    ensures Untouched(r, Fire(r, store, env), x)
  {
    hide Untouched, SpawnOutbound;
    Still(r, r, x);
    if |r.dials| < r.config.maxDials && r.sched.Pick(env.now).Some? {
      var d, base := r.sched.Pick(env.now).value, r.(sched := r.sched.TakeDue(env.now));
      TakeDueTouchesOne(r, env.now, x);
      SpawnTouchesOne(base, store, d, false, None, env, x);
      UntouchedCompose(r, base, SpawnOutbound(base, store, d, false, None, env), x);
    }
  }

  lemma TakeDueTouchesOne(r: Runtime, now: Instant, x: DeviceId)
    requires r.sched.Pick(now) != Some(x)
    ensures Untouched(r, r.(sched := r.sched.TakeDue(now)), x)
  {
  }

  lemma IncomingTouches(r: Runtime, store: Store, result: Result<Candidate, Code>, env: Env, x: DeviceId)
    requires x !in Device(result) && Held(r.sessions, r.tasks.sessions, r.nextSession) && r.nextPairing !in r.pending
    ensures Untouched(r, IncomingDone(r, store, result, env), x)
  {
    hide Untouched, RegisterSession, RegisterPending;
    var r1 := r.(tasks := r.tasks.(accept := if r.tasks.accept == 0 then 0 else r.tasks.accept - 1));
    Still(r, r1, x);
    Still(r1, r1, x);
    var r2 := r1;
    if result.Ok? {
      RegisterTouchesOne(r1, store, result.value, Inbound, env, x);
      PendingTouchesOne(r1, store, result.value, Inbound, x);
      r2 := if result.value.Authorized? then RegisterSession(r1, store, result.value, Inbound, env).0
            else RegisterPending(r1, store, result.value, Inbound).0;
    }
    var s := r2.(tasks := r2.tasks.(accept := r2.tasks.accept + 1));
    Still(r2, s, x);
    UntouchedCompose(r, r1, r2, x);
    UntouchedCompose(r, r2, s, x);
  }

  lemma PairingDoneTouches(r: Runtime, store: Store, pid: PairingId, outcome: Option<Candidate>, env: Env, x: DeviceId)
    requires pid in r.tasks.pairings && Held(r.sessions, r.tasks.sessions, r.nextSession)
    requires (pid in r.pending ==> r.pending[pid].device != x) && (outcome.Some? ==> outcome.value.device != x)
    ensures Untouched(r, PairingDone(r, store, pid, outcome, env), x)
  {
    hide Untouched, RegisterSession;
    var r1 := r.(tasks := r.tasks.(pairings := r.tasks.pairings - {pid}), pending := r.pending - {pid});
    LeavingTouchesOne(r, r1, pid, x);
    Still(r1, Close(r1, r.tasks.pairings[pid].conn), x);
    UntouchedCompose(r, r1, Close(r1, r.tasks.pairings[pid].conn), x);
    if outcome.Some? {
      Still(r1, Close(r1, outcome.value.conn), x);
      UntouchedCompose(r, r1, Close(r1, outcome.value.conn), x);
      if pid in r.pending {
        RegisterTouchesOne(r1, store, outcome.value, r.pending[pid].origin, env, x);
        UntouchedCompose(r, r1, RegisterSession(r1, store, outcome.value, r.pending[pid].origin, env).0, x);
      }
    }
  }

  lemma LeavingTouchesOne(r: Runtime, s: Runtime, pid: PairingId, x: DeviceId)
    requires pid in r.pending ==> r.pending[pid].device != x
    requires s.dials == r.dials && s.sched == r.sched && s.sessions == r.sessions && s.pending == r.pending - {pid}
    ensures Untouched(r, s, x)
  {
  }

  lemma RemovalsTouchOne(r: Runtime, sid: SessionId, failure: Failure, env: Env, now: Instant, x: DeviceId)
    requires sid in r.sessions && r.sessions[sid].device != x
    ensures Untouched(r, Disconnect(r, sid, now), x)
    ensures sid in r.tasks.sessions ==> Untouched(r, SessionDone(r, sid, failure, env), x)
  {
    hide CancelDial, ToAll;
    CancelTouchesOne(r, r.sessions[sid].device, Refused(ConnectionFailed), x);
    Effects.CancelIsExact(r, r.sessions[sid].device, Refused(ConnectionFailed));
  }

  lemma PurgeTouchesOne(r: Runtime, d: DeviceId, x: DeviceId)
    requires x != d
    ensures Untouched(r, Invalidate(r, d), x)
  {
  }

  lemma NumbersAreNew(w: World)
    requires Inv(w)
    ensures Held(w.rt.sessions, w.rt.tasks.sessions, w.rt.nextSession) && w.rt.nextPairing !in w.rt.pending
  {
  }

  /** Every step but stopping leaves alone every device it is not about. */
  lemma NextIsLocal(c: Codec, w: World, e: Event, x: DeviceId)
    requires Inv(w) && x !in About(w, e) && !e.Stop?
    ensures Untouched(w.rt, Next(c, w, e).rt, x)
  {
    hide IncomingDone, PairingDone, SpawnOutbound, Fire, DialDone, Invalidate, Disconnect, SessionDone, Resolving, Commit, Untouched,
         Inv, Held;
    var r, store := w.rt, w.store;
    NumbersAreNew(w);
    Still(r, r, x);
    if r.running {
      match e {
        case Timer(env) => FireTouches(r, store, env, x);
        case Dial(d, pairing, reply, env) => SpawnTouchesOne(r, store, d, pairing, Some(reply), env, x);
        case Hint(d, now) => HintTouchesOne(r, d, now, x);
        case RevokePeer(d, io) => PurgeTouchesOne(r, d, x);
        case ForgetPeer(d, io) => PurgeTouchesOne(r, d, x);
        case DisconnectSession(sid, now) => DisconnectTouches(r, sid, now, x);
        case ConfirmPairing(pid, accepted, delivered) => ConfirmTouchesOne(r, pid, accepted, delivered, x);
        case Incoming(result, env) => IncomingTouches(r, store, result, env, x);
        case DialEnded(d, token, result, env) => DialDoneTouches(r, store, d, token, result, env, x);
        case PairingEnded(pid, outcome, env) =>
          if pid in r.tasks.pairings {
            PairingDoneTouches(r, store, pid, outcome, env, x);
          }
        case SessionEnded(sid, failure, env) =>
          if sid in r.tasks.sessions {
            SessionEndTouches(r, sid, failure, env, x);
          }
        case _ => Still(r, Next(c, w, e).rt, x);
      }
    }
  }

  lemma DisconnectTouches(r: Runtime, sid: SessionId, now: Instant, x: DeviceId)
    requires sid in r.sessions ==> r.sessions[sid].device != x
    ensures Untouched(r, Disconnect(r, sid, now), x)
  {
    hide Untouched;
    if sid in r.sessions {
      RemovalsTouchOne(r, sid, Network, Env(now, 0, false, None), now, x);
    } else {
      Still(r, r, x);
    }
  }

  lemma SessionEndTouches(r: Runtime, sid: SessionId, failure: Failure, env: Env, x: DeviceId)
    requires sid in r.tasks.sessions && (sid in r.sessions ==> r.sessions[sid].device != x)
    ensures Untouched(r, SessionDone(r, sid, failure, env), x)
  {
    hide Untouched;
    if sid in r.sessions {
      RemovalsTouchOne(r, sid, failure, env, 0, x);
    } else {
      Still(r, SessionDone(r, sid, failure, env), x);
    }
  }

  lemma HintTouchesOne(r: Runtime, d: DeviceId, now: Instant, x: DeviceId)
    requires x != d
    ensures Untouched(r, Remember(r, d, now), x)
  {
    hide Untouched;
    Still(r, r, x);
    if d in r.sched.peers {
      PeerTouchesOne(r, d, r.sched.peers[d].Resume(now), x);
    }
  }

  lemma ConfirmTouchesOne(r: Runtime, pid: PairingId, accepted: bool, delivered: bool, x: DeviceId)
    requires pid in r.pending ==> r.pending[pid].device != x
    ensures Untouched(r, Confirm(r, pid, accepted, delivered), x)
  {
    hide Resolving;
  }
}
