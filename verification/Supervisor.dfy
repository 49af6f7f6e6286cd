/** The daemon supervisor of rift-daemon as a transition function: one owner of the session,
    outbound-dial, pending-pairing and scheduler maps, stepped by commands, the timer and the
    results of its tasks. Connections are identities with a locally observed closed flag. */
module Supervisor {
  import opened Common
  import opened Connectivity
  import opened TrustJournal

  const MAX_DIAL_WAITERS: nat := 16
  const MAX_OWNED_TASKS: nat := 1024

  type ConnId = nat
  type PairingId = nat
  type ReplyId = nat

  datatype Origin = Inbound | Outbound

  function Preferred(local: DeviceId, remote: DeviceId): Origin {
    if local < remote then Outbound else Inbound
  }

  /** Whether a new connection displaces an open one: only the preferred direction does. */
  predicate Replaces(origin: Origin, existing: Origin, local: DeviceId, remote: DeviceId) {
    origin == Preferred(local, remote) && existing != Preferred(local, remote)
  }

  datatype Code =
    | InvalidRequest | PeerNotTrusted | PeerAlreadyTrusted | CapacityExceeded | PersistenceFailed
    | ConnectionFailed | ShuttingDown | Internal | PeerUnresolved | PurposeRefused | ProtocolRejected

  function Category(code: Code): Failure {
    match code
    case PeerUnresolved => NoRoute
    case ConnectionFailed => Network
    case CapacityExceeded => Capacity
    case PurposeRefused => PurposeRejected
    case PeerNotTrusted | PeerAlreadyTrusted => NotTrusted
    case ShuttingDown => Cancelled
    case _ => Protocol
  }

  datatype Answer = ToSession(device: DeviceId, sid: SessionId) | ToPairing(pid: PairingId) | Refused(code: Code)

  /** `generation` is the forget fence the session's connection captured when it was admitted. */
  datatype SessionRecord = SessionRecord(device: DeviceId, conn: ConnId, origin: Origin, generation: nat)

  datatype DialRecord = DialRecord(token: nat, pairing: bool, replies: seq<ReplyId>, cancelled: bool)

  datatype PendingRecord = PendingRecord(device: DeviceId, conn: ConnId, origin: Origin, resolving: Option<bool>)

  datatype Candidate =
    | Authorized(device: DeviceId, conn: ConnId, generation: nat)
    | Pairable(device: DeviceId, conn: ConnId, generation: nat)

  datatype Config = Config(self: DeviceId, maxSessions: nat, maxDials: nat, maxPending: nat, maxIpc: nat, workers: nat)

  /** A connection-holding task: its peer and the connection that closes when the task ends. */
  datatype Holder = Holder(device: DeviceId, conn: ConnId)

  datatype Tasks = Tasks(
    accept: nat, ipc: nat, dials: set<(DeviceId, nat)>, pairings: map<PairingId, Holder>, sessions: map<SessionId, Holder>)
  {
    function Owned(): nat { accept + ipc + |dials| + |pairings| + |sessions| }
  }

  datatype Runtime = Runtime(
    config: Config, running: bool,
    sessions: map<SessionId, SessionRecord>, dials: map<DeviceId, DialRecord>, pending: map<PairingId, PendingRecord>,
    sched: Sched, nextSession: nat, nextDial: nat, nextPairing: nat,
    tasks: Tasks, closed: set<ConnId>, answers: seq<(ReplyId, Answer)>)

  /** What the world supplies to a step: the clock, a jitter sample, whether a pairing slot is
      free, and why no route to the peer exists, if none does. */
  datatype Env = Env(now: Instant, sample: nat, slotFree: bool, noRoute: Option<Code>)

  // ----- small pieces -----

  function Close(r: Runtime, conn: ConnId): Runtime {
    r.(closed := r.closed + {conn})
  }

  predicate OpenSession(r: Runtime, d: DeviceId, sid: SessionId) {
    sid in r.sessions && r.sessions[sid].device == d && r.sessions[sid].conn !in r.closed
  }

  /** The open session with a peer. */
  ghost function Canonical(r: Runtime, d: DeviceId): Option<SessionId> {
    if exists sid :: OpenSession(r, d, sid) then var sid :| OpenSession(r, d, sid); Some(sid) else None
  }

  predicate SessionWith(r: Runtime, d: DeviceId, sid: SessionId) {
    sid in r.sessions && r.sessions[sid].device == d
  }

  /** The registered session with a peer, open or not. */
  ghost function Existing(r: Runtime, d: DeviceId): Option<SessionId> {
    if exists sid :: SessionWith(r, d, sid) then var sid :| SessionWith(r, d, sid); Some(sid) else None
  }

  function SetPeer(r: Runtime, d: DeviceId, p: Peer): Runtime {
    r.(sched := r.sched.Set(d, p))
  }

  /** The managed peer; the value for an unmanaged one is never used. */
  function PeerOf(r: Runtime, d: DeviceId): Peer {
    if d in r.sched.peers then r.sched.peers[d] else NewPeer(0)
  }

  function MarkDialling(r: Runtime, d: DeviceId): Runtime {
    if d in r.sched.peers then SetPeer(r, d, r.sched.peers[d].Dialling()) else r
  }

  function MarkFailed(r: Runtime, d: DeviceId, code: Code, env: Env): Runtime {
    if d in r.sched.peers then SetPeer(r, d, r.sched.peers[d].Fail(Category(code), env.now, env.sample)) else r
  }

  function MarkLost(r: Runtime, d: DeviceId, now: Instant, sample: nat): Runtime {
    if d in r.sched.peers then SetPeer(r, d, r.sched.peers[d].Lose(now, sample)) else r
  }

  function ToAll(replies: seq<ReplyId>, answer: Answer): (s: seq<(ReplyId, Answer)>)
    ensures |s| == |replies|
  {
    seq(|replies|, i requires 0 <= i < |replies| => (replies[i], answer))
  }

  function AnswerAll(r: Runtime, replies: seq<ReplyId>, answer: Answer): Runtime {
    r.(answers := r.answers + ToAll(replies, answer))
  }

  function AsReplies(reply: Option<ReplyId>): seq<ReplyId> {
    if reply.Some? then [reply.value] else []
  }

  // ----- dialling -----

  predicate Busy(rec: DialRecord) {
    rec.cancelled || rec.pairing || |rec.replies| >= MAX_DIAL_WAITERS
  }

  /** Joins an existing dial or starts a new one; `Ok(None)` means a dial is under way. */
  function StartDial(r: Runtime, d: DeviceId, pairing: bool, env: Env): (Runtime, Result<Option<SessionId>, Code>) {
    if d in r.dials then
      if pairing || Busy(r.dials[d]) then (r, Err(CapacityExceeded)) else (MarkDialling(r, d), Ok(None))
    else if |r.dials| >= r.config.maxDials || r.tasks.Owned() >= MAX_OWNED_TASKS then (r, Err(CapacityExceeded))
    else if pairing && (!env.slotFree || exists pid | pid in r.pending :: r.pending[pid].device == d) then
      (r, Err(CapacityExceeded))
    else if env.noRoute.Some? then (r, Err(env.noRoute.value))
    else if r.nextDial >= U64_MAX then (r, Err(Internal))
    else (MarkDialling(AddDial(r, d, pairing), d), Ok(None))
  }

  function AddDial(r: Runtime, d: DeviceId, pairing: bool): Runtime {
    r.(dials := r.dials[d := DialRecord(r.nextDial, pairing, [], false)],
       nextDial := r.nextDial + 1,
       tasks := r.tasks.(dials := r.tasks.dials + {(d, r.nextDial)}))
  }

  function AddWaiters(r: Runtime, d: DeviceId, replies: seq<ReplyId>): Runtime
    requires d in r.dials
  {
    r.(dials := r.dials[d := r.dials[d].(replies := r.dials[d].replies + replies)])
  }

  /** The dial's task has been joined and its record taken out. */
  function TakeDial(r: Runtime, d: DeviceId, token: nat): Runtime {
    r.(tasks := r.tasks.(dials := r.tasks.dials - {(d, token)}), dials := r.dials - {d})
  }

  /** Why a dial is refused before anything changes. */
  ghost function DialRefusal(r: Runtime, store: Store, d: DeviceId, pairing: bool): Option<Code> {
    if !r.running then Some(ShuttingDown)
    else if d == r.config.self then Some(InvalidRequest)
    else if pairing && store.IsTrusted(d) then Some(PeerAlreadyTrusted)
    else if (if pairing then d in store.decisions else !store.IsTrusted(d)) then Some(PeerNotTrusted)
    else if d in r.dials && r.dials[d].cancelled && Canonical(r, d).None? then Some(CapacityExceeded)
    else if !pairing && !r.sched.HasRoom(d) then Some(CapacityExceeded)
    else None
  }

  ghost function StartOutbound(r: Runtime, store: Store, d: DeviceId, pairing: bool, manual: bool, env: Env)
    : (Runtime, Result<Option<SessionId>, Code>)
  {
    match DialRefusal(r, store, d, pairing)
    case Some(code) => (r, Err(code))
    case None =>
      if pairing then StartDial(r, d, true, env) else
      var r1 := r.(sched := r.sched.Insert(d, env.now));
      if Canonical(r1, d).None? && d in r1.dials && Busy(r1.dials[d]) then (r1, Err(CapacityExceeded)) else
      var r2 := if manual then SetPeer(r1, d, r1.sched.peers[d].Resume(env.now)) else r1;
      if Canonical(r2, d).Some? then (r2, Ok(Canonical(r2, d))) else StartDial(r2, d, false, env)
  }

  ghost function SpawnOutbound(r: Runtime, store: Store, d: DeviceId, pairing: bool, reply: Option<ReplyId>, env: Env): Runtime {
    var (r1, result) := StartOutbound(r, store, d, pairing, reply.Some?, env);
    match result
    case Ok(Some(sid)) => AnswerAll(r1, AsReplies(reply), ToSession(d, sid))
    case Ok(None) =>
      if d in r1.dials then AddWaiters(r1, d, AsReplies(reply))
      else AnswerAll(r1, AsReplies(reply), Refused(Internal))
    case Err(code) =>
      var r2 := if !pairing && Canonical(r1, d).None? && d !in r1.dials then MarkFailed(r1, d, code, env) else r1;
      AnswerAll(r2, AsReplies(reply), Refused(code))
  }

  function CancelDial(r: Runtime, d: DeviceId, answer: Answer): Runtime {
    if d !in r.dials then r else
    AnswerAll(r.(dials := r.dials[d := r.dials[d].(cancelled := true, replies := [])]), r.dials[d].replies, answer)
  }

  // ----- sessions and pairings -----

  /** Registers an admitted connection, displaces another, or closes the newcomer. (Closing one
      that is already closed changes nothing.) */
  ghost function RegisterSession(r: Runtime, store: Store, c: Candidate, origin: Origin, env: Env)
    : (Runtime, Result<SessionId, Code>)
  {
    match Screen(r, store, c)
    case Some(result) => (Close(r, c.conn), result)
    case None => Seat(r.(sched := r.sched.Insert(c.device, env.now)), c, origin, env)
  }

  /** What settles a newcomer before the registry is consulted: lost authorization, a connection
      that is already gone, or no room for another managed peer. */
  ghost function Screen(r: Runtime, store: Store, c: Candidate): Option<Result<SessionId, Code>> {
    if !store.IsTrusted(c.device) || store.Generation(c.device) != c.generation then Some(Err(PeerNotTrusted))
    else if c.conn in r.closed then
      Some(if Canonical(r, c.device).Some? then Ok(Canonical(r, c.device).value) else Err(ConnectionFailed))
    else if !r.sched.HasRoom(c.device) then Some(Err(CapacityExceeded))
    else None
  }

  ghost function Seat(r: Runtime, c: Candidate, origin: Origin, env: Env): (Runtime, Result<SessionId, Code>) {
    match Judge(r, c, origin)
    case TurnAway(code) => (Close(r, c.conn), Err(code))
    case KeepOld(sid) => (Close(r, c.conn), Ok(sid))
    case Admit(existing) => (Install(Displace(r, c.device, existing, env), c, origin, env), Ok(r.nextSession))
  }

  datatype Verdict = TurnAway(code: Code) | KeepOld(sid: SessionId) | Admit(existing: Option<SessionId>)

  /** Whether a live, authorized newcomer is registered, and what it displaces. */
  ghost function Judge(r: Runtime, c: Candidate, origin: Origin): (v: Verdict)
    ensures v.Admit? ==> v.existing == Existing(r, c.device)
    ensures v.Admit? && v.existing.Some? ==> v.existing.value in r.sessions
  {
    var existing := Existing(r, c.device);
    if existing.Some? && r.sessions[existing.value].conn !in r.closed
       && !Replaces(origin, r.sessions[existing.value].origin, r.config.self, c.device) then KeepOld(existing.value)
    else if existing.None? && |r.sessions| >= r.config.maxSessions then TurnAway(CapacityExceeded)
    // One slot is kept for starting the accept worker again after this result.
    else if r.tasks.Owned() >= MAX_OWNED_TASKS - 1 then TurnAway(CapacityExceeded)
    else if r.nextSession >= U64_MAX then TurnAway(Internal)
    else Admit(existing)
  }

  /** Drops the session being replaced. One whose connection was already gone counts as a loss. */
  function Displace(r: Runtime, d: DeviceId, existing: Option<SessionId>, env: Env): Runtime
    requires existing.Some? ==> existing.value in r.sessions
  {
    if existing.None? then r else
    var conn := r.sessions[existing.value].conn;
    var r1 := if conn in r.closed then MarkLost(r, d, env.now, env.sample) else r;
    r1.(sessions := r1.sessions - {existing.value}, closed := r1.closed + {conn})
  }

  function Install(r: Runtime, c: Candidate, origin: Origin, env: Env): Runtime {
    var sid, d := r.nextSession, c.device;
    var r1 := AddSession(r, c, origin, env.now);
    if origin == Inbound && r.config.self > d then CancelDial(r1, d, ToSession(d, sid)) else r1
  }

  function AddSession(r: Runtime, c: Candidate, origin: Origin, now: Instant): Runtime {
    var sid, d := r.nextSession, c.device;
    r.(nextSession := sid + 1,
       sessions := r.sessions[sid := SessionRecord(d, c.conn, origin, c.generation)],
       tasks := r.tasks.(sessions := r.tasks.sessions[sid := Holder(d, c.conn)]),
       sched := if d in r.sched.peers then r.sched.Set(d, r.sched.peers[d].Connect(sid, now)) else r.sched)
  }

  /** Takes a session out of the registry and out of its peer's scheduler entry. */
  function RemoveSession(r: Runtime, sid: SessionId, p: Peer): Runtime
    requires sid in r.sessions
  {
    var d := r.sessions[sid].device;
    r.(sessions := r.sessions - {sid}, sched := if d in r.sched.peers then r.sched.Set(d, p) else r.sched)
  }

  function RegisterPending(r: Runtime, store: Store, c: Candidate, origin: Origin): (Runtime, Result<PairingId, Code>) {
    if c.device in store.decisions || store.Generation(c.device) != c.generation then
      (Close(r, c.conn), Err(PeerNotTrusted))
    else if |r.pending| >= r.config.maxPending || r.tasks.Owned() >= MAX_OWNED_TASKS - 1 then
      (Close(r, c.conn), Err(CapacityExceeded))
    else if r.nextPairing >= U64_MAX then (Close(r, c.conn), Err(Internal))
    else
      var pid := r.nextPairing;
      (r.(nextPairing := pid + 1,
          pending := r.pending[pid := PendingRecord(c.device, c.conn, origin, None)],
          tasks := r.tasks.(pairings := r.tasks.pairings[pid := Holder(c.device, c.conn)])),
       Ok(pid))
  }

  /** Revocation or forgetting removes everything the peer had. */
  function Invalidate(r: Runtime, d: DeviceId): Runtime {
    Purge(CancelDial(r, d, Refused(PeerNotTrusted)), d)
  }

  function Purge(r: Runtime, d: DeviceId): Runtime {
    r.(sched := r.sched.(peers := r.sched.peers - {d}),
       pending := map pid | pid in r.pending && r.pending[pid].device != d :: r.pending[pid],
       sessions := map sid | sid in r.sessions && r.sessions[sid].device != d :: r.sessions[sid],
       closed := r.closed
               + (set pid | pid in r.pending && r.pending[pid].device == d :: r.pending[pid].conn)
               + (set sid | sid in r.sessions && r.sessions[sid].device == d :: r.sessions[sid].conn))
  }

  function Disconnect(r: Runtime, sid: SessionId, now: Instant): Runtime {
    if sid !in r.sessions then r else
    var rec := r.sessions[sid];
    var r1 := CancelDial(r, rec.device, Refused(ConnectionFailed));
    Close(RemoveSession(r1, sid, PeerOf(r, rec.device).Suspend().Lose(now, 0)), rec.conn)
  }

  ghost function Resolving(r: Runtime): set<PairingId> {
    set pid | pid in r.pending && r.pending[pid].resolving == Some(true)
  }

  /** Hands a human decision to the pairing's task; `delivered` is whether the task still listens. */
  ghost function Confirm(r: Runtime, pid: PairingId, accepted: bool, delivered: bool): Runtime {
    if accepted && |r.sched.peers| + |Resolving(r)| >= MAX_MANAGED_PEERS then r
    else if pid !in r.pending || r.pending[pid].resolving.Some? then r
    else if delivered then r.(pending := r.pending[pid := r.pending[pid].(resolving := Some(accepted))])
    else r.(pending := r.pending - {pid})
  }

  /** A hint makes an unresolved peer due again, unless it is suspended. */
  function Remember(r: Runtime, d: DeviceId, now: Instant): Runtime {
    if d in r.sched.peers && r.sched.peers[d].state == Unresolved && !r.sched.peers[d].suspended
    then SetPeer(r, d, r.sched.peers[d].Resume(now)) else r
  }

  // ----- results of tasks -----

  /** An accept worker returned and is started again; it holds no slot while its result is handled. */
  ghost function IncomingDone(r: Runtime, store: Store, result: Result<Candidate, Code>, env: Env): Runtime {
    var r1 := r.(tasks := r.tasks.(accept := if r.tasks.accept == 0 then 0 else r.tasks.accept - 1));
    var r2 :=
      match result
      case Err(_) => r1
      case Ok(c) => if c.Authorized? then RegisterSession(r1, store, c, Inbound, env).0
                    else RegisterPending(r1, store, c, Inbound).0;
    r2.(tasks := r2.tasks.(accept := r2.tasks.accept + 1))
  }

  function DropResult(r: Runtime, result: Result<Candidate, Code>): Runtime {
    if result.Ok? then Close(r, result.value.conn) else r
  }

  /** What a finished dial comes to, before its waiters are told. */
  ghost function SettleDial(r: Runtime, store: Store, d: DeviceId, pairing: bool, result: Result<Candidate, Code>, env: Env)
    : (Runtime, Answer)
  {
    match result
    case Err(code) => (r, Refused(code))
    case Ok(c) =>
      if c.Authorized? && !pairing then
        var (r1, s) := RegisterSession(r, store, c, Outbound, env);
        (r1, if s.Ok? then ToSession(d, s.value) else Refused(s.error))
      else if c.Pairable? && pairing then
        var (r1, p) := RegisterPending(r, store, c, Outbound);
        (r1, if p.Ok? then ToPairing(p.value) else Refused(p.error))
      else (Close(r, c.conn), Refused(Internal))
  }

  ghost function DialDone(r: Runtime, store: Store, d: DeviceId, token: nat, result: Result<Candidate, Code>, env: Env): Runtime {
    if !(d in r.dials && r.dials[d].token == token) then
      DropResult(r.(tasks := r.tasks.(dials := r.tasks.dials - {(d, token)})), result) else
    var rec := r.dials[d];
    var r2 := TakeDial(r, d, token);
    if rec.cancelled then DropResult(r2, result) else
    var (r3, answer) := SettleDial(r2, store, d, rec.pairing, result, env);
    TellWaiters(r3, d, rec, answer, env)
  }

  /** Records a failed dial and answers its callers; an open session with the peer, however it
      came about, satisfies them. */
  ghost function TellWaiters(r: Runtime, d: DeviceId, rec: DialRecord, answer: Answer, env: Env): Runtime {
    if rec.pairing then AnswerAll(r, rec.replies, answer)
    else if Canonical(r, d).Some? then AnswerAll(r, rec.replies, ToSession(d, Canonical(r, d).value))
    else AnswerAll(if answer.Refused? then MarkFailed(r, d, answer.code, env) else r, rec.replies, answer)
  }

  /** `result` is the authorized connection of a completed pairing, if it completed. */
  ghost function PairingDone(r: Runtime, store: Store, pid: PairingId, result: Option<Candidate>, env: Env): Runtime
    requires pid in r.tasks.pairings
  {
    var holder := r.tasks.pairings[pid];
    var r1 := r.(tasks := r.tasks.(pairings := r.tasks.pairings - {pid}), pending := r.pending - {pid});
    if result.None? then Close(r1, holder.conn)
    else if pid in r.pending then RegisterSession(r1, store, result.value, r.pending[pid].origin, env).0
    else Close(r1, result.value.conn)
  }

  function SessionDone(r: Runtime, sid: SessionId, failure: Failure, env: Env): Runtime
    requires sid in r.tasks.sessions
  {
    var holder := r.tasks.sessions[sid];
    var p := PeerOf(r, holder.device).Lose(env.now, env.sample);
    var r1 := if sid !in r.sessions then r
              else RemoveSession(r, sid, if failure != Network && !p.suspended then p.Fail(failure, env.now, 0) else p);
    EndSessionTask(r1, sid, holder.conn)
  }

  /** The session's task has been joined; the connection it owned closes with it. */
  function EndSessionTask(r: Runtime, sid: SessionId, conn: ConnId): Runtime {
    r.(tasks := r.tasks.(sessions := r.tasks.sessions - {sid}), closed := r.closed + {conn})
  }

  /** The callers waiting on dials to identities in a range, in identity order. */
  ghost function Waiters(dials: map<DeviceId, DialRecord>, lo: nat, hi: nat): seq<ReplyId>
    requires lo <= hi <= ID_LIMIT
    decreases hi - lo
  {
    if lo == hi then [] else Waiters(dials, lo, hi - 1) + if hi - 1 in dials then dials[hi - 1].replies else []
  }

  ghost function Shutdown(r: Runtime): Runtime {
    r.(running := false, sched := r.sched.(peers := map[]),
       dials := map d | d in r.dials :: r.dials[d].(cancelled := true, replies := []),
       answers := r.answers + ToAll(Waiters(r.dials, 0, ID_LIMIT), Refused(ShuttingDown)),
       closed := r.closed + (set pid | pid in r.pending :: r.pending[pid].conn)
                          + (set sid | sid in r.sessions :: r.sessions[sid].conn),
       pending := map[], sessions := map[])
  }

  // ----- the supervisor and its trust store as one system -----

  datatype World = World(rt: Runtime, store: Store)

  /** Everything that can happen: commands, the timer, task results, and what tasks and the
      network do on their own (`PairingCommits`, `ConnectionLost`). */
  datatype Event =
    | Timer(env: Env)
    | Dial(d: DeviceId, pairing: bool, reply: ReplyId, env: Env)
    | Hint(d: DeviceId, now: Instant)
    | RevokePeer(d: DeviceId, io: Persist)
    | ForgetPeer(d: DeviceId, io: Persist)
    | DisconnectSession(sid: SessionId, now: Instant)
    | ConfirmPairing(pid: PairingId, accepted: bool, delivered: bool)
    | Incoming(result: Result<Candidate, Code>, env: Env)
    | DialEnded(d: DeviceId, token: nat, result: Result<Candidate, Code>, env: Env)
    | PairingEnded(pid: PairingId, outcome: Option<Candidate>, env: Env)
    | SessionEnded(sid: SessionId, failure: Failure, env: Env)
    | IpcConnected
    | IpcEnded
    | PairingCommits(peer: TrustedPeer, generation: nat, io: Persist)
    | ConnectionLost(conn: ConnId)
    | Stop

  ghost function Fire(r: Runtime, store: Store, env: Env): Runtime {
    if |r.dials| >= r.config.maxDials || r.sched.Pick(env.now).None? then r
    else SpawnOutbound(r.(sched := r.sched.TakeDue(env.now)), store, r.sched.Pick(env.now).value, false, None, env)
  }

  ghost function Withdraw(c: Codec, w: World, m: Mutation, io: Persist): World {
    var (store, result) := Commit(c, w.store, m, None, io);
    World(if result.Ok? then Invalidate(w.rt, Target(m)) else w.rt, store)
  }

  ghost function Next(c: Codec, w: World, e: Event): World {
    var r, store := w.rt, w.store;
    if !r.running then w else
    match e
    case Timer(env) => w.(rt := Fire(r, store, env))
    case Dial(d, pairing, reply, env) => w.(rt := SpawnOutbound(r, store, d, pairing, Some(reply), env))
    case Hint(d, now) => w.(rt := Remember(r, d, now))
    case RevokePeer(d, io) => Withdraw(c, w, Revoke(d), io)
    case ForgetPeer(d, io) => Withdraw(c, w, Forget(d), io)
    case DisconnectSession(sid, now) => w.(rt := Disconnect(r, sid, now))
    case ConfirmPairing(pid, accepted, delivered) => w.(rt := Confirm(r, pid, accepted, delivered))
    case Incoming(result, env) => if r.tasks.accept == 0 then w else w.(rt := IncomingDone(r, store, result, env))
    case DialEnded(d, token, result, env) =>
      if (d, token) !in r.tasks.dials then w else w.(rt := DialDone(r, store, d, token, result, env))
    case PairingEnded(pid, outcome, env) =>
      if pid !in r.tasks.pairings then w else w.(rt := PairingDone(r, store, pid, outcome, env))
    case SessionEnded(sid, failure, env) =>
      if sid !in r.tasks.sessions then w else w.(rt := SessionDone(r, sid, failure, env))
    case IpcConnected =>
      if r.tasks.ipc >= r.config.maxIpc || r.tasks.Owned() >= MAX_OWNED_TASKS then w
      else w.(rt := r.(tasks := r.tasks.(ipc := r.tasks.ipc + 1)))
    case IpcEnded => if r.tasks.ipc == 0 then w else w.(rt := r.(tasks := r.tasks.(ipc := r.tasks.ipc - 1)))
    case PairingCommits(peer, generation, io) =>
      w.(store := Commit(c, store, Trust(peer), Some((peer.deviceId, generation)), io).0)
    case ConnectionLost(conn) => w.(rt := Close(r, conn))
    case Stop => w.(rt := Shutdown(r))
  }

  ghost function Run(c: Codec, w: World, es: seq<Event>): World {
    if es == [] then w else Next(c, Run(c, w, es[..|es| - 1]), es[|es| - 1])
  }
}
