/** CROSS-DIAL CONVERGENCE. Two supervisors that trust each other have each opened a connection to
    the other. Registrations, supersessions, cancellations, losses, ends of sessions and the timer's
    redials happen at both ends in any order. The connection opened by the lower identity is never
    closed by either end, the rest comes to rest, and then both ends hold that connection only. */
module CrossDial {
  import opened Common
  import opened Connectivity
  import opened TrustJournal
  import opened Supervisor
  import opened Registry
  import opened SupervisorRuns

  // ----- what one end shows of its sessions -----

  datatype Seen = Seen(sessions: Sessions, tasks: map<SessionId, Holder>, closed: set<ConnId>, next: nat)

  function Seating(r: Runtime): Seen {
    Seen(r.sessions, r.tasks.sessions, r.closed, r.nextSession)
  }

  /** The session with a device, if any, is `e` and no other. */
  ghost predicate Lone(sessions: Sessions, d: DeviceId, e: Option<SessionId>) {
    && (e.Some? ==> e.value in sessions && sessions[e.value].device == d)
    && (forall sid | sid in sessions && sessions[sid].device == d :: e == Some(sid))
  }

  /** What becomes of a live, authorized newcomer when there is room for it. */
  ghost function Arrive(v: Seen, e: Option<SessionId>, c: Candidate, origin: Origin, self: DeviceId): Seen
    requires e.Some? ==> e.value in v.sessions
  {
    if c.conn in v.closed then v
    else if e.Some? && v.sessions[e.value].conn !in v.closed && !Replaces(origin, v.sessions[e.value].origin, self, c.device)
    then v.(closed := v.closed + {c.conn})
    else Seen((v.sessions - Gone(e))[v.next := SessionRecord(c.device, c.conn, origin, c.generation)],
              v.tasks[v.next := Holder(c.device, c.conn)],
              if e.Some? then v.closed + {v.sessions[e.value].conn} else v.closed,
              v.next + 1)
  }

  // ----- one end of the crossing -----

  /** `a` is the connection both ends must keep; `dials` says whether this end opened it. */
  datatype Side = Side(peer: DeviceId, a: ConnId, dials: bool, generation: nat) {
    function Kept(): Origin { if dials then Outbound else Inbound }
    function Other(): Origin { if dials then Inbound else Outbound }
    function Newcomer(conn: ConnId): Candidate { Authorized(peer, conn, generation) }
    function Way(conn: ConnId): Origin { if conn == a then Kept() else Other() }
    predicate Fits(self: DeviceId) { self != peer && (dials <==> self < peer) }
  }

  /** What is on its way to one supervisor: `pa`, the result bringing `a`; `pb`, the results bringing
      others. `others` are all connections opened by the end that did not open `a`, so far; `token`
      names this end's own latest dial. */
  datatype Flight = Flight(pa: bool, others: set<ConnId>, pb: set<ConnId>, token: nat) {
    function A(x: Side): set<ConnId> { if pa then {x.a} else {} }
    function Dialling(x: Side): set<ConnId> { if x.dials then A(x) else pb }
    function Accepting(x: Side): set<ConnId> { if x.dials then pb else A(x) }
    function Coming(x: Side): set<ConnId> { A(x) + pb }
    function Without(x: Side, conn: ConnId): Flight { this.(pa := pa && conn != x.a, pb := pb - {conn}) }
    function With(conn: ConnId): Flight { this.(others := others + {conn}, pb := pb + {conn}) }
  }

  ghost predicate Seats(v: Seen, x: Side, f: Flight, e: Option<SessionId>) {
    && Lone(v.sessions, x.peer, e)
    && Held(v.sessions, v.tasks, v.next)
    && x.a !in v.closed && x.a !in f.others && f.pb <= f.others
    && (f.pa <==> !IsSession(v, e, x.a))
    && (e.Some? ==> v.sessions[e.value].conn in {x.a} + (f.others - f.pb)
                    && v.sessions[e.value].origin == x.Way(v.sessions[e.value].conn))
    && (forall o | o in f.others - f.pb && o !in v.closed :: IsSession(v, e, o))
    && (forall sid | sid in v.tasks && v.tasks[sid].conn == x.a :: e == Some(sid))
  }

  predicate IsSession(v: Seen, e: Option<SessionId>, conn: ConnId) {
    e.Some? && e.value in v.sessions && v.sessions[e.value].conn == conn
  }

  lemma KeptArrives(v: Seen, x: Side, f: Flight, e: Option<SessionId>, self: DeviceId)
    requires Seats(v, x, f, e) && f.pa && x.Fits(self)
    ensures Seats(Arrive(v, e, x.Newcomer(x.a), x.Kept(), self), x, f.Without(x, x.a), Some(v.next))
  {
  }

  lemma OtherArrives(v: Seen, x: Side, f: Flight, e: Option<SessionId>, o: ConnId, self: DeviceId)
    requires Seats(v, x, f, e) && o in f.pb && x.Fits(self)
    ensures Seats(Arrive(v, e, x.Newcomer(o), x.Other(), self), x, f.Without(x, o),
                  if o in v.closed || (e.Some? && v.sessions[e.value].conn !in v.closed) then e else Some(v.next))
  {
  }

  lemma OtherClosed(v: Seen, x: Side, f: Flight, e: Option<SessionId>, o: ConnId)
    requires Seats(v, x, f, e) && o in f.others
    ensures var u := v.(closed := v.closed + {o}); Seats(u, x, f, e) && Seats(u, x, f.Without(x, o), e)
  {
  }

  lemma OtherEnds(v: Seen, x: Side, f: Flight, e: Option<SessionId>, sid: SessionId)
    requires Seats(v, x, f, e) && sid in v.tasks && v.tasks[sid].conn in f.others
    ensures Seats(Seen(v.sessions - {sid}, v.tasks - {sid}, v.closed + {v.tasks[sid].conn}, v.next), x, f,
                  if e == Some(sid) then None else e)
  {
  }

  /** The other end opens one more. */
  lemma OtherOpens(v: Seen, x: Side, f: Flight, e: Option<SessionId>, o: ConnId)
    requires Seats(v, x, f, e) && o !in f.others + {x.a}
    ensures Seats(v, x, f.With(o), e)
  {
  }

  // ----- the supervisor shows exactly this -----

  lemma LoneIsExisting(r: Runtime, d: DeviceId, e: Option<SessionId>)
    requires Lone(r.sessions, d, e)
    ensures Existing(r, d) == e
  {
    if e.Some? {
      assert SessionWith(r, d, e.value);
    }
  }

  lemma AgreesIsLone(r: Runtime, d: DeviceId)
    requires Agrees(r.sessions, r.sched.peers)
    ensures Lone(r.sessions, d, Existing(r, d))
  {
    forall sid | sid in r.sessions && r.sessions[sid].device == d ensures Existing(r, d) == Some(sid) {
      assert SessionWith(r, d, sid);
    }
  }

  /** Room for one more session with a device. */
  predicate Roomy(r: Runtime, store: Store, c: Candidate, e: Option<SessionId>) {
    && store.IsTrusted(c.device) && store.Generation(c.device) == c.generation
    && r.sched.HasRoom(c.device) && r.tasks.Owned() < MAX_OWNED_TASKS - 1 && r.nextSession < U64_MAX
    && (e.None? ==> |r.sessions| < r.config.maxSessions)
  }

  function Cancelled(dials: Dials, d: DeviceId): Dials {
    if d in dials then dials[d := dials[d].(cancelled := true, replies := [])] else dials
  }

  /** What registering leaves alone, but for the one dial it may cancel. */
  ghost predicate Beside(r: Runtime, s: Runtime, d: DeviceId, origin: Origin) {
    && s.config == r.config && s.running == r.running && s.sched.HasRoom(d)
    && s.tasks.(sessions := r.tasks.sessions) == r.tasks
    && (s.dials == r.dials || (origin == Inbound && r.config.self > d && s.dials == Cancelled(r.dials, d)))
  }

  lemma InstallBeside(r: Runtime, c: Candidate, origin: Origin, env: Env)
    ensures var s, t := AddSession(r, c, origin, env.now), Install(r, c, origin, env);
            && Seating(t) == Seating(s) && t.config == s.config && t.running == s.running && t.sched == s.sched
            && t.tasks == s.tasks
            && (t.dials == s.dials || (origin == Inbound && r.config.self > c.device && t.dials == Cancelled(s.dials, c.device)))
  {
  }

  lemma DisplaceCloses(r: Runtime, c: Candidate, origin: Origin, e: Option<SessionId>, env: Env)
    requires e.Some? ==> e.value in r.sessions
    ensures AddSession(Displace(r, c.device, e, env), c, origin, env.now).closed
         == if e.Some? then r.closed + {r.sessions[e.value].conn} else r.closed
  {
  }

  lemma AdmitArrives(r: Runtime, c: Candidate, origin: Origin, env: Env, e: Option<SessionId>)
    requires c.device in r.sched.peers && (e.Some? ==> e.value in r.sessions)
    ensures var s := Install(Displace(r, c.device, e, env), c, origin, env);
            && Seating(s) == Seen((r.sessions - Gone(e))[r.nextSession := SessionRecord(c.device, c.conn, origin, c.generation)],
                                  r.tasks.sessions[r.nextSession := Holder(c.device, c.conn)],
                                  if e.Some? then r.closed + {r.sessions[e.value].conn} else r.closed, r.nextSession + 1)
            && Beside(r, s, c.device, origin)
  {
    hide Install, AddSession, Displace;
    AddedShape(r, c, origin, e, env);
    DisplaceCloses(r, c, origin, e, env);
    DisplaceKeepsConfig(r, c.device, e, env);
    InstallBeside(Displace(r, c.device, e, env), c, origin, env);
  }

  lemma DisplaceKeepsConfig(r: Runtime, d: DeviceId, e: Option<SessionId>, env: Env)
    requires e.Some? ==> e.value in r.sessions
    ensures Displace(r, d, e, env).config == r.config
  {
  }

  lemma SeatArrives(r: Runtime, c: Candidate, origin: Origin, env: Env, e: Option<SessionId>)
    requires Lone(r.sessions, c.device, e) && c.device in r.sched.peers && c.conn !in r.closed
    requires r.tasks.Owned() < MAX_OWNED_TASKS - 1 && r.nextSession < U64_MAX
    requires e.None? ==> |r.sessions| < r.config.maxSessions
    ensures Seating(Seat(r, c, origin, env).0) == Arrive(Seating(r), e, c, origin, r.config.self)
    ensures Beside(r, Seat(r, c, origin, env).0, c.device, origin)
  {
    hide Existing, Install, Displace, Tasks.Owned;
    LoneIsExisting(r, c.device, e);
    AdmitArrives(r, c, origin, env, e);
  }

  lemma RegisterArrives(r: Runtime, store: Store, c: Candidate, origin: Origin, env: Env, e: Option<SessionId>)
    requires Lone(r.sessions, c.device, e) && Roomy(r, store, c, e)
    ensures Seating(RegisterSession(r, store, c, origin, env).0) == Arrive(Seating(r), e, c, origin, r.config.self)
    ensures Beside(r, RegisterSession(r, store, c, origin, env).0, c.device, origin)
  {
    hide Seat, Canonical, Lone;
    if c.conn in r.closed {
      assert r.closed + {c.conn} == r.closed;
    } else {
      SeatArrives(r.(sched := r.sched.Insert(c.device, env.now)), c, origin, env, e);
    }
  }

  // ----- what one end keeps -----

  /** Capacity left for the results still to come and for `spare` further connections. */
  predicate Room(r: Runtime, x: Side, f: Flight, e: Option<SessionId>, spare: nat) {
    && r.tasks.accept > 0 && r.sched.HasRoom(x.peer) && r.nextSession + |f.Coming(x)| + spare <= U64_MAX
    && (e.None? ==> |r.sessions| < r.config.maxSessions)
    && r.tasks.Owned() + |f.Accepting(x)| + spare < MAX_OWNED_TASKS
  }

  /** This end's own dial is under way; the end that keeps the peer's connection may have cancelled it. */
  predicate DialPending(dials: Dials, x: Side, f: Flight) {
    && x.peer in dials && dials[x.peer].token == f.token && !dials[x.peer].pairing
    && (dials[x.peer].cancelled ==> !x.dials && !f.pa)
  }

  ghost predicate SideInv(w: World, x: Side, f: Flight, spare: nat) {
    var r, e := w.rt, Existing(w.rt, x.peer);
    && Inv(w) && r.running && x.Fits(r.config.self)
    && w.store.IsTrusted(x.peer) && w.store.Generation(x.peer) == x.generation
    && Seats(Seating(r), x, f, e) && Room(r, x, f, e, spare)
    && (f.Dialling(x) != {} ==> DialPending(r.dials, x, f)) && |f.Dialling(x)| <= 1
  }

  // ----- results of this end's dial and of its accept workers -----

  ghost predicate AfterDial(r: Runtime, s: Runtime, x: Side, token: nat) {
    && s.config == r.config && s.running == r.running && s.sched.HasRoom(x.peer)
    && s.tasks.(sessions := r.tasks.sessions, dials := r.tasks.dials) == r.tasks
    && s.tasks.dials == r.tasks.dials - {(x.peer, token)}
  }

  predicate SameButPeers(r: Runtime, s: Runtime) {
    && Seating(s) == Seating(r) && s.config == r.config && s.running == r.running && s.tasks == r.tasks
    && s.sched.peers.Keys == r.sched.peers.Keys
  }

  lemma FailedBeside(r: Runtime, d: DeviceId, code: Code, env: Env)
    ensures SameButPeers(r, MarkFailed(r, d, code, env))
  {
  }

  lemma TellBeside(r: Runtime, d: DeviceId, rec: DialRecord, answer: Answer, env: Env)
    ensures SameButPeers(r, TellWaiters(r, d, rec, answer, env))
  {
    hide Canonical, ToAll, MarkFailed;
    if answer.Refused? {
      FailedBeside(r, d, answer.code, env);
    }
  }

  lemma TakenBeside(r: Runtime, x: Side, token: nat)
    ensures var s := TakeDial(r, x.peer, token);
            && Seating(s) == Seating(r) && s.running == r.running && s.config == r.config && s.sched == r.sched
            && s.tasks == r.tasks.(dials := r.tasks.dials - {(x.peer, token)})
            && ((x.peer, token) in r.tasks.dials ==> s.tasks.Owned() + 1 == r.tasks.Owned())
  {
  }

  /** A live dial brings its connection, or only its failure. */
  lemma DialBrings(r: Runtime, store: Store, x: Side, token: nat, result: Result<Candidate, Code>, env: Env, e: Option<SessionId>)
    requires x.peer in r.dials && r.dials[x.peer].token == token && !r.dials[x.peer].pairing && !r.dials[x.peer].cancelled
    requires (x.peer, token) in r.tasks.dials && r.tasks.Owned() < MAX_OWNED_TASKS
    requires Lone(r.sessions, x.peer, e) && r.sched.HasRoom(x.peer)
    requires result.Ok? ==>
      result.value.Authorized? && result.value.device == x.peer && Roomy(TakeDial(r, x.peer, token), store, result.value, e)
    ensures var s := DialDone(r, store, x.peer, token, result, env);
            && Seating(s) == (if result.Ok? then Arrive(Seating(r), e, result.value, Outbound, r.config.self) else Seating(r))
            && AfterDial(r, s, x, token)
  {
    hide RegisterSession, TakeDial, TellWaiters, Lone, Roomy;
    var r2, rec := TakeDial(r, x.peer, token), r.dials[x.peer];
    TakenBeside(r, x, token);
    if result.Ok? {
      RegisterArrives(r2, store, result.value, Outbound, env, e);
    }
    var (r3, answer) := SettleDial(r2, store, x.peer, rec.pairing, result, env);
    TellBeside(r3, x.peer, rec, answer, env);
  }

  lemma CancelledDialDrops(r: Runtime, store: Store, x: Side, token: nat, result: Result<Candidate, Code>, env: Env)
    requires x.peer in r.dials && r.dials[x.peer].token == token && r.dials[x.peer].cancelled && r.sched.HasRoom(x.peer)
    ensures var s := DialDone(r, store, x.peer, token, result, env);
            && Seating(s) == (if result.Ok? then Seating(Close(r, result.value.conn)) else Seating(r))
            && AfterDial(r, s, x, token)
  {
  }

  ghost predicate AfterIncoming(r: Runtime, s: Runtime, x: Side) {
    && s.config == r.config && s.running == r.running && s.sched.HasRoom(x.peer)
    && s.tasks.(sessions := r.tasks.sessions) == r.tasks
    && (s.dials == r.dials || (r.config.self > x.peer && s.dials == Cancelled(r.dials, x.peer)))
  }

  lemma IncomingBrings(r: Runtime, store: Store, x: Side, result: Result<Candidate, Code>, env: Env, e: Option<SessionId>)
    requires r.tasks.accept > 0 && Lone(r.sessions, x.peer, e) && r.sched.HasRoom(x.peer)
    requires result.Ok? ==>
      && result.value.Authorized? && result.value.device == x.peer
      && Roomy(r.(tasks := r.tasks.(accept := r.tasks.accept - 1)), store, result.value, e)
    ensures var s := IncomingDone(r, store, result, env);
            && Seating(s) == (if result.Ok? then Arrive(Seating(r), e, result.value, Inbound, r.config.self) else Seating(r))
            && AfterIncoming(r, s, x)
  {
    hide RegisterSession, Lone, Roomy;
    if result.Ok? {
      RegisterArrives(r.(tasks := r.tasks.(accept := r.tasks.accept - 1)), store, result.value, Inbound, env, e);
    }
  }

  // ----- steps of one end -----

  /** The result a dial or an accept worker may bring of a connection: the connection, or a
      failure once the connection is closed here. */
  predicate Brings(r: Runtime, x: Side, conn: ConnId, result: Result<Candidate, Code>) {
    result == Ok(x.Newcomer(conn)) || (result.Err? && conn in r.closed)
  }

  ghost function Left(w: World, f: Flight, x: Side): nat {
    2 * |f.Coming(x)| + |w.rt.tasks.sessions| + |f.others - w.rt.closed|
  }

  lemma ComingShrinks(x: Side, f: Flight, conn: ConnId)
    requires conn in f.Coming(x) && x.a !in f.pb
    ensures f.Without(x, conn).Coming(x) == f.Coming(x) - {conn}
    ensures f.Without(x, conn).Accepting(x) == f.Accepting(x) - {conn}
    ensures f.Without(x, conn).Dialling(x) == f.Dialling(x) - {conn}
  {
  }

  lemma FewerOpen(others: set<ConnId>, closed: set<ConnId>, more: set<ConnId>)
    requires closed <= more
    ensures |others - more| <= |others - closed|
  {
    FewerElements(others - more, others - closed);
  }

  lemma SeatsAreExisting(r: Runtime, x: Side, f: Flight, e: Option<SessionId>)
    requires Seats(Seating(r), x, f, e)
    ensures Existing(r, x.peer) == e && (e.Some? ==> e.value in r.sessions) && x.a !in f.pb && f.pb <= f.others
  {
    LoneIsExisting(r, x.peer, e);
  }

  /** What an arrival leaves for the end to go on with. */
  ghost predicate Arrived(r: Runtime, s: Runtime, x: Side, f: Flight, e: Option<SessionId>, e': Option<SessionId>) {
    && Seats(Seating(s), x, f, e') && r.closed <= s.closed && s.nextSession <= r.nextSession + 1
    && |s.tasks.sessions| <= |r.tasks.sessions| + 1 && (e'.None? ==> s.sessions == r.sessions && e.None?)
  }

  /** How the arrival of a connection changes the seating, whichever way it came. */
  lemma ArrivalSeats(v: Seen, x: Side, f: Flight, conn: ConnId, self: DeviceId, e: Option<SessionId>)
    returns (e': Option<SessionId>)
    requires Seats(v, x, f, e) && x.Fits(self) && conn in f.Coming(x)
    ensures var v' := Arrive(v, e, x.Newcomer(conn), x.Way(conn), self);
            && Seats(v', x, f.Without(x, conn), e') && v.closed <= v'.closed && v'.next <= v.next + 1
            && |v'.tasks| <= |v.tasks| + 1 && (e'.None? ==> v'.sessions == v.sessions && e.None?)
  {
    if conn == x.a {
      KeptArrives(v, x, f, e, self);
      e' := Some(v.next);
    } else {
      OtherArrives(v, x, f, e, conn, self);
      e' := if conn in v.closed || (e.Some? && v.sessions[e.value].conn !in v.closed) then e else Some(v.next);
    }
    hide Lone, Held;
  }

  /** A failure is reported only of a connection that is closed; nothing changes then, as if it had
      arrived closed. */
  lemma FailureIsArrival(r: Runtime, x: Side, conn: ConnId, result: Result<Candidate, Code>, e: Option<SessionId>)
    requires Brings(r, x, conn, result) && (e.Some? ==> e.value in r.sessions)
    ensures (if result.Ok? then Arrive(Seating(r), e, result.value, x.Way(conn), r.config.self) else Seating(r))
         == Arrive(Seating(r), e, x.Newcomer(conn), x.Way(conn), r.config.self)
  {
  }

  lemma SomeComing(s: set<ConnId>, conn: ConnId)
    requires conn in s
    ensures |s| >= 1 && |s - {conn}| == |s| - 1
  {
  }

  lemma DialRoom(r: Runtime, store: Store, x: Side, f: Flight, e: Option<SessionId>, spare: nat, conn: ConnId)
    requires Room(r, x, f, e, spare) && store.IsTrusted(x.peer) && store.Generation(x.peer) == x.generation
    requires conn in f.Dialling(x) && (x.peer, f.token) in r.tasks.dials
    ensures Roomy(TakeDial(r, x.peer, f.token), store, x.Newcomer(conn), e)
  {
    SomeComing(f.Coming(x), conn);
  }

  lemma AcceptRoom(r: Runtime, store: Store, x: Side, f: Flight, e: Option<SessionId>, spare: nat, conn: ConnId)
    requires Room(r, x, f, e, spare) && store.IsTrusted(x.peer) && store.Generation(x.peer) == x.generation
    requires conn in f.Accepting(x)
    ensures Roomy(r.(tasks := r.tasks.(accept := r.tasks.accept - 1)), store, x.Newcomer(conn), e)
  {
    SomeComing(f.Coming(x), conn);
    SomeComing(f.Accepting(x), conn);
  }

  lemma WayOfDial(x: Side, f: Flight, conn: ConnId)
    requires x.a !in f.pb
    ensures conn in f.Dialling(x) ==> x.Way(conn) == Outbound && conn in f.Coming(x)
    ensures conn in f.Accepting(x) ==> x.Way(conn) == Inbound && conn in f.Coming(x)
  {
  }

  // ----- what an arrival leaves -----

  /** A dial result or an accept result leads to a state with the same store whose sessions are
      those that follow from its connection arriving. */
  lemma ArrivalKeeps(w: World, w': World, x: Side, f: Flight, spare: nat, conn: ConnId, e': Option<SessionId>)
    requires SideInv(w, x, f, spare) && Inv(w') && w'.store == w.store && conn in f.Coming(x)
    requires w'.rt.running && w'.rt.config == w.rt.config && w'.rt.sched.HasRoom(x.peer) && w'.rt.tasks.accept > 0
    requires Arrived(w.rt, w'.rt, x, f.Without(x, conn), Existing(w.rt, x.peer), e')
    requires w'.rt.tasks.Owned() + |f.Without(x, conn).Accepting(x)| <= w.rt.tasks.Owned() + |f.Accepting(x)|
    requires f.Without(x, conn).Dialling(x) != {} ==> DialPending(w'.rt.dials, x, f.Without(x, conn))
    ensures SideInv(w', x, f.Without(x, conn), spare)
  {
    hide Inv, Existing, Seats, Room, DialPending;
    SeatsAreExisting(w.rt, x, f, Existing(w.rt, x.peer));
    SeatsAreExisting(w'.rt, x, f.Without(x, conn), e');
    RoomLeft(w.rt, w'.rt, x, f, conn, Existing(w.rt, x.peer), e', spare);
    ComingShrinks(x, f, conn);
    FewerElements(f.Dialling(x) - {conn}, f.Dialling(x));
  }

  lemma RoomLeft(r: Runtime, s: Runtime, x: Side, f: Flight, conn: ConnId, e: Option<SessionId>, e': Option<SessionId>,
                 spare: nat)
    requires Room(r, x, f, e, spare) && conn in f.Coming(x) && x.a !in f.pb
    requires s.config == r.config && s.sched.HasRoom(x.peer) && s.tasks.accept > 0 && s.nextSession <= r.nextSession + 1
    requires s.tasks.Owned() + |f.Without(x, conn).Accepting(x)| <= r.tasks.Owned() + |f.Accepting(x)|
    requires e'.None? ==> s.sessions == r.sessions && e.None?
    ensures Room(s, x, f.Without(x, conn), e', spare)
  {
    ComingShrinks(x, f, conn);
    SomeComing(f.Coming(x), conn);
  }

  lemma ArrivalLowers(w: World, w': World, x: Side, f: Flight, conn: ConnId)
    requires conn in f.Coming(x) && x.a !in f.pb
    requires |w'.rt.tasks.sessions| <= |w.rt.tasks.sessions| + 1 && w.rt.closed <= w'.rt.closed
    ensures Left(w', f.Without(x, conn), x) < Left(w, f, x)
  {
    ComingShrinks(x, f, conn);
    SomeComing(f.Coming(x), conn);
    FewerOpen(f.others, w.rt.closed, w'.rt.closed);
  }

  // ----- dial results -----

  lemma DialIsArrival(w: World, x: Side, f: Flight, spare: nat, conn: ConnId, result: Result<Candidate, Code>, env: Env)
    requires SideInv(w, x, f, spare) && conn in f.Dialling(x) && Brings(w.rt, x, conn, result)
    requires !w.rt.dials[x.peer].cancelled && (x.peer, f.token) in w.rt.tasks.dials
    ensures var s := DialDone(w.rt, w.store, x.peer, f.token, result, env);
            && Seating(s) == Arrive(Seating(w.rt), Existing(w.rt, x.peer), x.Newcomer(conn), x.Way(conn), w.rt.config.self)
            && AfterDial(w.rt, s, x, f.token)
  {
    var r, e := w.rt, Existing(w.rt, x.peer);
    WayOfDial(x, f, conn);
    DialRoom(r, w.store, x, f, e, spare, conn);
    FailureIsArrival(r, x, conn, result, e);
    hide Inv, Existing, Lone, Held, DialDone, Arrive, Roomy, TakeDial, AfterDial;
    DialBrings(r, w.store, x, f.token, result, env, e);
  }

  lemma OwnedAfterDial(r: Runtime, s: Runtime, x: Side, token: nat)
    requires AfterDial(r, s, x, token) && (x.peer, token) in r.tasks.dials && |s.tasks.sessions| <= |r.tasks.sessions| + 1
    ensures s.tasks.Owned() <= r.tasks.Owned() && s.tasks.accept == r.tasks.accept
  {
  }

  lemma DialHasTask(w: World, x: Side, f: Flight, spare: nat)
    requires SideInv(w, x, f, spare) && f.Dialling(x) != {}
    ensures (x.peer, f.token) in w.rt.tasks.dials && x.a !in f.pb && f.pb <= f.others
  {
  }

  lemma ClosedSeats(r: Runtime, s: Runtime, x: Side, f: Flight, conn: ConnId, e: Option<SessionId>)
    requires Seats(Seating(r), x, f, e) && conn in f.others && Seating(s) == Seating(r).(closed := r.closed + {conn})
    ensures Arrived(r, s, x, f.Without(x, conn), e, e)
  {
    hide Lone, Held;
    OtherClosed(Seating(r), x, f, e, conn);
  }

  lemma CancelledOutcome(w: World, x: Side, f: Flight, spare: nat, conn: ConnId, result: Result<Candidate, Code>, env: Env)
    requires SideInv(w, x, f, spare) && conn in f.Dialling(x) && Brings(w.rt, x, conn, result) && w.rt.dials[x.peer].cancelled
    ensures var s, e := DialDone(w.rt, w.store, x.peer, f.token, result, env), Existing(w.rt, x.peer);
            Arrived(w.rt, s, x, f.Without(x, conn), e, e) && AfterDial(w.rt, s, x, f.token)
  {
    hide Inv, Existing, Seats, DialDone, Arrived, AfterDial;
    var r := w.rt;
    DialHasTask(w, x, f, spare);
    CancelledDialDrops(r, w.store, x, f.token, result, env);
    DroppedIsClosed(r, x, conn, result);
    ClosedSeats(r, DialDone(r, w.store, x.peer, f.token, result, env), x, f, conn, Existing(r, x.peer));
  }

  lemma DialOutcome(w: World, x: Side, f: Flight, spare: nat, conn: ConnId, result: Result<Candidate, Code>, env: Env)
    returns (e': Option<SessionId>)
    requires SideInv(w, x, f, spare) && conn in f.Dialling(x) && Brings(w.rt, x, conn, result)
    ensures var s := DialDone(w.rt, w.store, x.peer, f.token, result, env);
            && Arrived(w.rt, s, x, f.Without(x, conn), Existing(w.rt, x.peer), e')
            && AfterDial(w.rt, s, x, f.token)
  {
    hide Inv, Existing, Seats, DialDone, Arrive, AfterDial, Brings, Room;
    var r, e := w.rt, Existing(w.rt, x.peer);
    DialHasTask(w, x, f, spare);
    if r.dials[x.peer].cancelled {
      CancelledOutcome(w, x, f, spare, conn, result, env);
      e' := e;
    } else {
      WayOfDial(x, f, conn);
      DialIsArrival(w, x, f, spare, conn, result, env);
      e' := ArrivalSeats(Seating(r), x, f, conn, r.config.self, e);
    }
  }

  lemma DroppedIsClosed(r: Runtime, x: Side, conn: ConnId, result: Result<Candidate, Code>)
    requires Brings(r, x, conn, result)
    ensures (if result.Ok? then Seating(Close(r, result.value.conn)) else Seating(r)) == Seating(r).(closed := r.closed + {conn})
  {
    if result.Err? {
      assert r.closed + {conn} == r.closed;
    }
  }

  /** This end's dial reports. */
  lemma DialStep(c: Codec, w: World, x: Side, f: Flight, spare: nat, conn: ConnId, result: Result<Candidate, Code>, env: Env)
    requires SideInv(w, x, f, spare) && conn in f.Dialling(x) && Brings(w.rt, x, conn, result)
    ensures var w' := Next(c, w, DialEnded(x.peer, f.token, result, env));
            SideInv(w', x, f.Without(x, conn), spare) && Left(w', f.Without(x, conn), x) < Left(w, f, x)
  {
    hide Inv, Existing, DialDone, Seats, Brings, DialPending;
    hide Flight.Coming, Flight.Accepting, Flight.Dialling, Flight.Without;
    var w' := Next(c, w, DialEnded(x.peer, f.token, result, env));
    NextKeeps(c, w, DialEnded(x.peer, f.token, result, env));
    DialHasTask(w, x, f, spare);
    WayOfDial(x, f, conn);
    var e' := DialOutcome(w, x, f, spare, conn, result, env);
    OwnedAfterDial(w.rt, w'.rt, x, f.token);
    ComingShrinks(x, f, conn);
    OnlyOne(f.Dialling(x), conn);
    FewerElements(f.Accepting(x) - {conn}, f.Accepting(x));
    ArrivalKeeps(w, w', x, f, spare, conn, e');
    ArrivalLowers(w, w', x, f, conn);
  }

  lemma OnlyOne(s: set<ConnId>, conn: ConnId)
    requires conn in s && |s| <= 1
    ensures s - {conn} == {}
  {
    SomeComing(s, conn);
  }

  // ----- accept results -----

  lemma IncomingIsArrival(w: World, x: Side, f: Flight, spare: nat, conn: ConnId, result: Result<Candidate, Code>, env: Env)
    requires SideInv(w, x, f, spare) && conn in f.Accepting(x) && Brings(w.rt, x, conn, result)
    ensures var s := IncomingDone(w.rt, w.store, result, env);
            && Seating(s) == Arrive(Seating(w.rt), Existing(w.rt, x.peer), x.Newcomer(conn), x.Way(conn), w.rt.config.self)
            && AfterIncoming(w.rt, s, x)
  {
    var r, e := w.rt, Existing(w.rt, x.peer);
    WayOfDial(x, f, conn);
    AcceptRoom(r, w.store, x, f, e, spare, conn);
    FailureIsArrival(r, x, conn, result, e);
    hide Inv, Existing, Lone, Held, IncomingDone, Arrive, Roomy, AfterIncoming;
    IncomingBrings(r, w.store, x, result, env, e);
  }

  lemma IncomingOutcome(w: World, x: Side, f: Flight, spare: nat, conn: ConnId, result: Result<Candidate, Code>, env: Env)
    returns (e': Option<SessionId>)
    requires SideInv(w, x, f, spare) && conn in f.Accepting(x) && Brings(w.rt, x, conn, result)
    ensures var s := IncomingDone(w.rt, w.store, result, env);
            && Arrived(w.rt, s, x, f.Without(x, conn), Existing(w.rt, x.peer), e')
            && AfterIncoming(w.rt, s, x)
  {
    hide Inv, Existing, Seats, IncomingDone, Arrive, AfterIncoming, Brings, Room;
    var e := Existing(w.rt, x.peer);
    SeatsAreExisting(w.rt, x, f, e);
    WayOfDial(x, f, conn);
    IncomingIsArrival(w, x, f, spare, conn, result, env);
    e' := ArrivalSeats(Seating(w.rt), x, f, conn, w.rt.config.self, e);
  }

  lemma IncomingKeepsDial(r: Runtime, s: Runtime, x: Side, f: Flight, conn: ConnId)
    requires AfterIncoming(r, s, x) && x.Fits(r.config.self) && DialPending(r.dials, x, f) && conn in f.Accepting(x)
    ensures (x.dials ==> conn != x.a) ==> DialPending(s.dials, x, f.Without(x, conn))
  {
  }

  lemma OwnedAfterIncoming(r: Runtime, s: Runtime, x: Side, f: Flight, conn: ConnId)
    requires AfterIncoming(r, s, x) && |s.tasks.sessions| <= |r.tasks.sessions| + 1 && conn in f.Accepting(x) && x.a !in f.pb
    ensures s.tasks.Owned() + |f.Without(x, conn).Accepting(x)| <= r.tasks.Owned() + |f.Accepting(x)|
    ensures s.tasks.accept == r.tasks.accept
  {
    WayOfDial(x, f, conn);
    ComingShrinks(x, f, conn);
    SomeComing(f.Accepting(x), conn);
  }

  /** An accept worker of this end reports. */
  lemma IncomingStep(c: Codec, w: World, x: Side, f: Flight, spare: nat, conn: ConnId, result: Result<Candidate, Code>, env: Env)
    requires SideInv(w, x, f, spare) && conn in f.Accepting(x) && Brings(w.rt, x, conn, result)
    ensures var w' := Next(c, w, Incoming(result, env));
            SideInv(w', x, f.Without(x, conn), spare) && Left(w', f.Without(x, conn), x) < Left(w, f, x)
  {
    hide Inv, Existing, IncomingDone, Seats, DialPending, Brings;
    hide Flight.Coming, Flight.Accepting, Flight.Dialling, Flight.Without;
    var w' := Next(c, w, Incoming(result, env));
    NextKeeps(c, w, Incoming(result, env));
    SeatsAreExisting(w.rt, x, f, Existing(w.rt, x.peer));
    WayOfDial(x, f, conn);
    var e' := IncomingOutcome(w, x, f, spare, conn, result, env);
    OwnedAfterIncoming(w.rt, w'.rt, x, f, conn);
    ComingShrinks(x, f, conn);
    if f.Dialling(x) != {} {
      IncomingKeepsDial(w.rt, w'.rt, x, f, conn);
    }
    ArrivalKeeps(w, w', x, f, spare, conn, e');
    ArrivalLowers(w, w', x, f, conn);
  }

  // ----- losses and the ends of sessions -----

  lemma SessionDoneShape(r: Runtime, sid: SessionId, failure: Failure, env: Env)
    requires sid in r.tasks.sessions
    ensures var s := SessionDone(r, sid, failure, env);
            && Seating(s) == Seen(r.sessions - {sid}, r.tasks.sessions - {sid},
                                  r.closed + {r.tasks.sessions[sid].conn}, r.nextSession)
            && s.tasks == r.tasks.(sessions := r.tasks.sessions - {sid})
            && s.sched.peers.Keys == r.sched.peers.Keys && s.config == r.config && s.running == r.running && s.dials == r.dials
  {
  }

  lemma SessionEndRoom(r: Runtime, s: Runtime, x: Side, f: Flight, e: Option<SessionId>, sid: SessionId, spare: nat)
    requires Room(r, x, f, e, spare) && |r.sessions| <= r.config.maxSessions && sid in r.tasks.sessions
    requires e == Some(sid) ==> sid in r.sessions
    requires s.tasks == r.tasks.(sessions := r.tasks.sessions - {sid}) && s.nextSession == r.nextSession && s.config == r.config
    requires s.sessions == r.sessions - {sid} && s.sched.peers.Keys == r.sched.peers.Keys
    ensures Room(s, x, f, if e == Some(sid) then None else e, spare)
    ensures |s.tasks.sessions| < |r.tasks.sessions|
  {
    hide Flight.Accepting, Flight.Coming;
  }

  lemma SessionsFit(w: World)
    requires Inv(w)
    ensures |w.rt.sessions| <= w.rt.config.maxSessions
  {
  }

  /** A session task of another connection ends, for whatever reason. */
  lemma SessionEndStep(c: Codec, w: World, x: Side, f: Flight, spare: nat, sid: SessionId, failure: Failure, env: Env)
    requires SideInv(w, x, f, spare) && sid in w.rt.tasks.sessions && w.rt.tasks.sessions[sid].conn in f.others
    ensures var w' := Next(c, w, SessionEnded(sid, failure, env));
            SideInv(w', x, f, spare) && Left(w', f, x) < Left(w, f, x)
  {
    hide Inv, Existing, SessionDone, Seats, Room, DialPending, Flight.Coming, Flight.Dialling;
    var r, e, w' := w.rt, Existing(w.rt, x.peer), Next(c, w, SessionEnded(sid, failure, env));
    NextKeeps(c, w, SessionEnded(sid, failure, env));
    SessionsFit(w);
    SeatsAreExisting(r, x, f, e);
    SessionDoneShape(r, sid, failure, env);
    OtherEnds(Seating(r), x, f, e, sid);
    SeatsAreExisting(w'.rt, x, f, if e == Some(sid) then None else e);
    SessionEndRoom(r, w'.rt, x, f, e, sid, spare);
    FewerOpen(f.others, r.closed, w'.rt.closed);
  }

  /** This end loses another connection. */
  lemma LostStep(c: Codec, w: World, x: Side, f: Flight, spare: nat, conn: ConnId)
    requires SideInv(w, x, f, spare) && conn in f.others - w.rt.closed
    ensures var w' := Next(c, w, ConnectionLost(conn));
            SideInv(w', x, f, spare) && Left(w', f, x) < Left(w, f, x)
  {
    hide Inv, Existing, Seats, DialPending, Flight.Accepting, Flight.Coming, Flight.Dialling;
    var e, w' := Existing(w.rt, x.peer), Next(c, w, ConnectionLost(conn));
    NextKeeps(c, w, ConnectionLost(conn));
    OtherClosed(Seating(w.rt), x, f, e, conn);
    SeatsAreExisting(w'.rt, x, f, e);
    assert f.others - w'.rt.closed == (f.others - w.rt.closed) - {conn};
  }

  // ----- the timer -----

  /** The timer changed nothing of the crossing. */
  predicate Paused(r: Runtime, s: Runtime) {
    SameButPeers(r, s) && s.dials == r.dials
  }

  /** The timer started a new dial to the peer. */
  predicate Redialled(r: Runtime, s: Runtime, d: DeviceId) {
    && SameButPeers(r, s.(tasks := r.tasks)) && d !in r.dials
    && s.dials == r.dials[d := DialRecord(r.nextDial, false, [], false)]
    && s.tasks == r.tasks.(dials := r.tasks.dials + {(d, r.nextDial)})
  }

  lemma MarkedBeside(r: Runtime, d: DeviceId, code: Code, env: Env)
    ensures Paused(r, MarkDialling(r, d)) && Paused(r, MarkFailed(r, d, code, env))
  {
  }

  lemma StartDialShape(r: Runtime, d: DeviceId, env: Env)
    ensures var (s, result) := StartDial(r, d, false, env);
            if result.Ok? && d !in r.dials then Redialled(r, s, d) else Paused(r, s)
    ensures var (s, result) := StartDial(r, d, false, env); if result.Ok? then d in s.dials && result.value.None? else s == r
  {
    hide MarkDialling, Busy;
    MarkedBeside(r, d, Internal, env);
    MarkedBeside(AddDial(r, d, false), d, Internal, env);
  }

  lemma StartShape(r: Runtime, store: Store, d: DeviceId, env: Env)
    requires r.running && d != r.config.self && store.IsTrusted(d) && d in r.sched.peers
    ensures var (s, result) := StartOutbound(r, store, d, false, false, env);
            && (if result == Ok(None) && d !in r.dials then Redialled(r, s, d) && Canonical(r, d).None? else Paused(r, s))
            && (result == Ok(None) ==> d in s.dials) && (result.Ok? && result.value.Some? ==> s == r) && (result.Err? ==> s == r)
  {
    hide StartDial, Canonical, Busy, Paused, Redialled;
    assert r.(sched := r.sched.Insert(d, env.now)) == r;
    StillPaused(r);
    StartDialShape(r, d, env);
  }

  lemma AnswersBeside(r: Runtime, s: Runtime, replies: seq<ReplyId>, answer: Answer)
    requires Paused(r, s)
    ensures Paused(r, AnswerAll(s, replies, answer))
  {
  }

  lemma WaitNobody(r: Runtime, s: Runtime, d: DeviceId)
    requires d in s.dials
    ensures Paused(r, s) ==> Paused(r, AddWaiters(s, d, []))
    ensures Redialled(r, s, d) ==> Redialled(r, AddWaiters(s, d, []), d)
  {
    assert s.dials[d].replies + [] == s.dials[d].replies;
    assert s.dials[d := s.dials[d]] == s.dials;
  }

  lemma StillPaused(r: Runtime)
    ensures Paused(r, r)
  {
  }

  /** What an automatic dial comes to: nothing of consequence, or a new dial when the peer has
      neither an open session nor a dial. */
  lemma SpawnShape(r: Runtime, store: Store, d: DeviceId, env: Env)
    requires r.running && d != r.config.self && store.IsTrusted(d) && d in r.sched.peers
    ensures var s := SpawnOutbound(r, store, d, false, None, env);
            Paused(r, s) || (Redialled(r, s, d) && Canonical(r, d).None?)
  {
    hide StartDial, Canonical, MarkFailed, Busy, Paused, Redialled;
    assert r.(sched := r.sched.Insert(d, env.now)) == r;
    var (s, result) := StartOutbound(r, store, d, false, false, env);
    StartShape(r, store, d, env);
    match result {
      case Ok(Some(sid)) =>
        StillPaused(r);
        AnswersBeside(r, r, [], ToSession(d, sid));
      case Ok(None) => WaitNobody(r, s, d);
      case Err(code) =>
        StillPaused(r);
        MarkedBeside(r, d, code, env);
        AnswersBeside(r, r, [], Refused(code));
        AnswersBeside(r, MarkFailed(r, d, code, env), [], Refused(code));
    }
  }

  /** The timer is about this peer, or about none. */
  ghost predicate Minds(r: Runtime, d: DeviceId, env: Env) {
    r.sched.Pick(env.now).Some? ==> r.sched.Pick(env.now).value == d
  }

  lemma FireShape(r: Runtime, store: Store, d: DeviceId, env: Env)
    requires r.running && d != r.config.self && store.IsTrusted(d) && Minds(r, d, env)
    ensures var s := Fire(r, store, env); Paused(r, s) || (Redialled(r, s, d) && Canonical(r, d).None?)
  {
    hide SpawnOutbound, Canonical;
    StillPaused(r);
    if |r.dials| < r.config.maxDials && r.sched.Pick(env.now).Some? {
      var base := r.(sched := r.sched.TakeDue(env.now));
      SameOpen(r, base, d);
      TakenKeys(r.sched, env.now);
      SpawnShape(base, store, d, env);
    }
  }

  lemma TakenKeys(s: Sched, now: Instant)
    ensures s.Pick(now).Some? ==> s.Pick(now).value in s.peers && s.TakeDue(now).peers.Keys == s.peers.Keys
  {
  }

  lemma SameOpen(r: Runtime, s: Runtime, d: DeviceId)
    requires s.sessions == r.sessions && s.closed == r.closed
    ensures Canonical(r, d).None? <==> Canonical(s, d).None?
  {
    if Canonical(r, d).Some? {
      assert OpenSession(s, d, Canonical(r, d).value);
    }
    if Canonical(s, d).Some? {
      assert OpenSession(r, d, Canonical(s, d).value);
    }
  }

  lemma PausedStep(w: World, w': World, x: Side, f: Flight, spare: nat)
    requires SideInv(w, x, f, spare) && Inv(w') && w'.store == w.store && Paused(w.rt, w'.rt)
    ensures SideInv(w', x, f, spare) && Left(w', f, x) == Left(w, f, x)
  {
    hide Inv, Existing, Seats, Flight.Accepting, Flight.Coming, Flight.Dialling;
    var e := Existing(w.rt, x.peer);
    SeatsAreExisting(w'.rt, x, f, e);
  }

  lemma OneMore(s: set<ConnId>, o: ConnId)
    requires o !in s
    ensures |s + {o}| == |s| + 1
  {
  }

  /** With one more connection under way at this end. */
  lemma MoreComing(x: Side, f: Flight, o: ConnId)
    requires o !in f.others + {x.a} && f.pb <= f.others
    ensures |f.With(o).Coming(x)| == |f.Coming(x)| + 1
    ensures |f.With(o).Accepting(x)| == |f.Accepting(x)| + if x.dials then 1 else 0
    ensures f.With(o).Dialling(x) == f.Dialling(x) + if x.dials then {} else {o}
  {
    assert f.With(o).Coming(x) == f.Coming(x) + {o};
    OneMore(f.Coming(x), o);
    OneMore(f.pb, o);
    assert f.With(o).A(x) == f.A(x) && f.With(o).pb == f.pb + {o};
    hide Flight.A, Flight.Coming;
  }

  lemma MoreLeft(w: World, x: Side, f: Flight, o: ConnId, w': World)
    requires o !in f.others + {x.a} && f.pb <= f.others
    requires w'.rt.tasks.sessions == w.rt.tasks.sessions && w'.rt.closed == w.rt.closed
    ensures Left(w', f.With(o), x) <= Left(w, f, x) + 3
  {
    MoreComing(x, f, o);
    FewerElements(f.With(o).others - w.rt.closed, (f.others - w.rt.closed) + {o});
  }

  /** The end that opened `a` hears that the other opens a further connection. */
  lemma OpenedStep(w: World, x: Side, f: Flight, spare: nat, o: ConnId)
    requires SideInv(w, x, f, spare) && x.dials && spare > 0 && o !in f.others + {x.a}
    ensures SideInv(w, x, f.With(o), spare - 1) && Left(w, f.With(o), x) <= Left(w, f, x) + 3
  {
    hide Inv, Existing, Seats, Left, Flight.Coming, Flight.Accepting, Flight.Dialling;
    var e := Existing(w.rt, x.peer);
    SeatsAreExisting(w.rt, x, f, e);
    OtherOpens(Seating(w.rt), x, f, e, o);
    MoreComing(x, f, o);
    MoreLeft(w, x, f, o, w);
  }

  lemma RedialOwned(w: World, w': World, d: DeviceId)
    requires Inv(w) && Redialled(w.rt, w'.rt, d)
    ensures w'.rt.tasks.Owned() == w.rt.tasks.Owned() + 1
  {
    assert (d, w.rt.nextDial) !in w.rt.tasks.dials;
  }

  /** The other end redials. */
  lemma RedialStep(w: World, w': World, x: Side, f: Flight, spare: nat, o: ConnId)
    requires SideInv(w, x, f, spare) && Inv(w') && w'.store == w.store && Redialled(w.rt, w'.rt, x.peer)
    requires !x.dials && spare > 0 && o !in f.others + {x.a}
    ensures var g := f.With(o).(token := w.rt.nextDial);
            SideInv(w', x, g, spare - 1) && Left(w', g, x) <= Left(w, f, x) + 3
  {
    hide Inv, Existing, Seats, Left, Flight.Coming, Flight.Accepting, Flight.Dialling, Tasks.Owned;
    RedialOwned(w, w', x.peer);
    var e, g := Existing(w.rt, x.peer), f.With(o).(token := w.rt.nextDial);
    SeatsAreExisting(w.rt, x, f, e);
    OtherOpens(Seating(w.rt), x, f, e, o);
    TokenIsNothing(Seating(w.rt), x, f.With(o), e, w.rt.nextDial);
    SeatsAreExisting(w'.rt, x, g, e);
    MoreComing(x, f, o);
    NotDialling(w, x, f, spare);
    MoreLeft(w, x, f, o, w');
    TokenLeaves(w', x, f.With(o), w.rt.nextDial);
  }

  lemma NotDialling(w: World, x: Side, f: Flight, spare: nat)
    requires SideInv(w, x, f, spare) && x.peer !in w.rt.dials
    ensures f.Dialling(x) == {}
  {
  }

  lemma TokenIsNothing(v: Seen, x: Side, f: Flight, e: Option<SessionId>, token: nat)
    requires Seats(v, x, f, e)
    ensures Seats(v, x, f.(token := token), e)
  {
  }

  lemma TokenLeaves(w: World, x: Side, f: Flight, token: nat)
    ensures var g := f.(token := token);
            && Left(w, g, x) == Left(w, f, x) && g.Coming(x) == f.Coming(x)
            && g.Accepting(x) == f.Accepting(x) && g.Dialling(x) == f.Dialling(x)
  {
  }

  /** An end that has or awaits its own `a` never redials: it has the session or the dial. */
  lemma KeeperStays(w: World, x: Side, f: Flight, spare: nat)
    requires SideInv(w, x, f, spare) && (x.dials || !f.pa)
    ensures x.peer in w.rt.dials || Canonical(w.rt, x.peer).Some?
  {
    hide Inv, Lone, Held, Room;
    if !f.pa {
      assert OpenSession(w.rt, x.peer, Existing(w.rt, x.peer).value) by {
        ExistingIsRegistered(w.rt, x.peer);
      }
    }
  }

  // ----- both ends -----

  /** `fl` and `fh` say what is on its way to which supervisor; `spare` is how many further
      connections there is room for. */
  datatype Pair = Pair(low: World, high: World, fl: Flight, fh: Flight, spare: nat)

  datatype Crossing = Crossing(low: Side, high: Side) {
    predicate Fits() { low.a == high.a && low.dials && !high.dials }
  }

  /** What happens at an end, and the connection it is about: the one a result brings, or the one a
      redial opens. */
  datatype Move = AtLow(e: Event, conn: ConnId) | AtHigh(e: Event, conn: ConnId)

  /** What may happen at one end: its dial or an accept worker reports; the timer is due, for this
      peer or for none; a session task of another connection ends, for any reason; another
      connection is lost, at any time. The connection to be kept is lost, and its session task ends,
      only if an end closes it. */
  ghost predicate May(w: World, x: Side, f: Flight, e: Event, conn: ConnId, farClosed: set<ConnId>) {
    match e
    case DialEnded(d, token, result, _) =>
      d == x.peer && token == f.token && conn in f.Dialling(x) && Brings(w.rt, x, conn, result)
    case Incoming(result, _) => conn in f.Accepting(x) && Brings(w.rt, x, conn, result)
    case Timer(env) => Minds(w.rt, x.peer, env)
    case SessionEnded(sid, _, _) =>
      sid in w.rt.tasks.sessions && w.rt.tasks.sessions[sid].conn in f.others + ({x.a} * w.rt.closed)
    case ConnectionLost(lost) => lost !in w.rt.closed && lost in f.others + ({x.a} * farClosed)
    case _ => false
  }

  /** The timer starts a new dial to the peer. */
  ghost predicate Redials(w: World, x: Side, e: Event) {
    e.Timer? && x.peer !in w.rt.dials && x.peer in Fire(w.rt, w.store, e.env).dials
  }

  ghost predicate Allowed(k: Crossing, s: Pair, m: Move) {
    match m
    case AtLow(e, conn) => May(s.low, k.low, s.fl, e, conn, s.high.rt.closed)
    case AtHigh(e, conn) =>
      && May(s.high, k.high, s.fh, e, conn, s.low.rt.closed)
      && (Redials(s.high, k.high, e) ==> s.spare > 0 && conn !in s.fh.others + {k.high.a})
  }

  function Onward(f: Flight, x: Side, e: Event, conn: ConnId): Flight {
    if e.DialEnded? || e.Incoming? then f.Without(x, conn) else f
  }

  ghost function Moved(c: Codec, k: Crossing, s: Pair, m: Move): Pair {
    match m
    case AtLow(e, conn) => s.(low := Next(c, s.low, e), fl := Onward(s.fl, k.low, e, conn))
    case AtHigh(e, conn) =>
      if Redials(s.high, k.high, e) && s.spare > 0 then
        Pair(s.low, Next(c, s.high, e), s.fl.With(conn), s.fh.With(conn).(token := s.high.rt.nextDial), s.spare - 1)
      else s.(high := Next(c, s.high, e), fh := Onward(s.fh, k.high, e, conn))
  }

  ghost predicate CrossInv(k: Crossing, s: Pair) {
    SideInv(s.low, k.low, s.fl, s.spare) && SideInv(s.high, k.high, s.fh, s.spare) && s.fl.others == s.fh.others
  }

  /** What is left to happen, counting what each further connection may add. */
  ghost function Remaining(k: Crossing, s: Pair): nat {
    Left(s.low, s.fl, k.low) + Left(s.high, s.fh, k.high) + 6 * s.spare
  }

  lemma TimerStep(c: Codec, w: World, x: Side, f: Flight, spare: nat, env: Env)
    requires SideInv(w, x, f, spare) && Minds(w.rt, x.peer, env)
    ensures var w' := Next(c, w, Timer(env));
            if Redials(w, x, Timer(env)) then !x.dials && f.pa && Redialled(w.rt, w'.rt, x.peer) && Inv(w') && w'.store == w.store
            else SideInv(w', x, f, spare) && Left(w', f, x) == Left(w, f, x)
  {
    hide Inv, Existing, Seats, Room, Fire, Canonical, Left, Flight.Dialling;
    var w' := Next(c, w, Timer(env));
    NextKeeps(c, w, Timer(env));
    FireShape(w.rt, w.store, x.peer, env);
    if Paused(w.rt, w'.rt) {
      PausedStep(w, w', x, f, spare);
    }
    if x.dials || !f.pa {
      KeeperStays(w, x, f, spare);
    }
  }

  lemma SideStep(c: Codec, w: World, x: Side, f: Flight, spare: nat, e: Event, conn: ConnId, farClosed: set<ConnId>)
    requires SideInv(w, x, f, spare) && May(w, x, f, e, conn, farClosed) && x.a !in farClosed && !Redials(w, x, e)
    ensures var w' := Next(c, w, e);
            var g := Onward(f, x, e, conn);
            && SideInv(w', x, g, spare) && (if e.Timer? then Left(w', g, x) <= Left(w, f, x) else Left(w', g, x) < Left(w, f, x))
            && g.others == f.others
  {
    NotClosed(w, x, f, spare);
    hide SideInv, Next, Left, Redials, Brings, Minds, Flight.Dialling, Flight.Accepting, Onward;
    OnwardShape(f, x, e, conn);
    match e {
      case DialEnded(_, _, result, env) => DialStep(c, w, x, f, spare, conn, result, env);
      case Incoming(result, env) => IncomingStep(c, w, x, f, spare, conn, result, env);
      case Timer(env) => TimerStep(c, w, x, f, spare, env);
      case SessionEnded(sid, failure, env) => SessionEndStep(c, w, x, f, spare, sid, failure, env);
      case ConnectionLost(lost) => LostStep(c, w, x, f, spare, lost);
    }
  }

  lemma OnwardShape(f: Flight, x: Side, e: Event, conn: ConnId)
    ensures Onward(f, x, e, conn) == (if e.DialEnded? || e.Incoming? then f.Without(x, conn) else f)
    ensures Onward(f, x, e, conn).others == f.others
  {
  }

  lemma NotClosed(w: World, x: Side, f: Flight, spare: nat)
    requires SideInv(w, x, f, spare)
    ensures x.a !in w.rt.closed
  {
  }

  /** The end that opened `a` never redials. */
  lemma LowStays(c: Codec, w: World, x: Side, f: Flight, spare: nat, e: Event, conn: ConnId, farClosed: set<ConnId>)
    requires SideInv(w, x, f, spare) && May(w, x, f, e, conn, farClosed) && (x.dials || !f.pa)
    ensures !Redials(w, x, e)
  {
    hide SideInv, Redials, Next;
    if Redials(w, x, e) {
      OnlyTimersRedial(w, x, e);
      TimerStep(c, w, x, f, spare, e.env);
    }
  }

  lemma HighRedials(c: Codec, k: Crossing, s: Pair, e: Event, conn: ConnId)
    requires k.Fits() && CrossInv(k, s) && Allowed(k, s, AtHigh(e, conn)) && Redials(s.high, k.high, e) && e.Timer?
    ensures var t := Moved(c, k, s, AtHigh(e, conn)); CrossInv(k, t) && Remaining(k, t) <= Remaining(k, s)
  {
    hide SideInv, Left, Next, Redials;
    TimerStep(c, s.high, k.high, s.fh, s.spare, e.env);
    RedialStep(s.high, Next(c, s.high, e), k.high, s.fh, s.spare, conn);
    OpenedStep(s.low, k.low, s.fl, s.spare, conn);
  }

  /** Every move but the timer's counts. */
  function Cost(m: Move): nat {
    if m.e.Timer? then 0 else 1
  }

  lemma LowMoves(c: Codec, k: Crossing, s: Pair, e: Event, conn: ConnId)
    requires k.Fits() && CrossInv(k, s) && Allowed(k, s, AtLow(e, conn))
    ensures var t := Moved(c, k, s, AtLow(e, conn)); CrossInv(k, t) && Remaining(k, t) + Cost(AtLow(e, conn)) <= Remaining(k, s)
  {
    hide SideInv, May, Left, Next, Redials, Onward;
    NotClosed(s.high, k.high, s.fh, s.spare);
    LowStays(c, s.low, k.low, s.fl, s.spare, e, conn, s.high.rt.closed);
    SideStep(c, s.low, k.low, s.fl, s.spare, e, conn, s.high.rt.closed);
  }

  lemma HighMoves(c: Codec, k: Crossing, s: Pair, e: Event, conn: ConnId)
    requires k.Fits() && CrossInv(k, s) && Allowed(k, s, AtHigh(e, conn)) && !Redials(s.high, k.high, e)
    ensures var t := Moved(c, k, s, AtHigh(e, conn)); CrossInv(k, t) && Remaining(k, t) + Cost(AtHigh(e, conn)) <= Remaining(k, s)
  {
    hide SideInv, May, Left, Next, Redials, Onward;
    NotClosed(s.low, k.low, s.fl, s.spare);
    SideStep(c, s.high, k.high, s.fh, s.spare, e, conn, s.low.rt.closed);
  }

  /** Every move keeps the crossing, and leaves less to happen unless it is the timer's. */
  lemma CrossStep(c: Codec, k: Crossing, s: Pair, m: Move)
    requires k.Fits() && CrossInv(k, s) && Allowed(k, s, m)
    ensures CrossInv(k, Moved(c, k, s, m)) && Remaining(k, Moved(c, k, s, m)) + Cost(m) <= Remaining(k, s)
  {
    hide CrossInv, Moved, Remaining, Redials, Allowed;
    match m {
      case AtLow(e, conn) => LowMoves(c, k, s, e, conn);
      case AtHigh(e, conn) =>
        if Redials(s.high, k.high, e) {
          OnlyTimersRedial(s.high, k.high, e);
          HighRedials(c, k, s, e, conn);
        } else {
          HighMoves(c, k, s, e, conn);
        }
    }
  }

  lemma OnlyTimersRedial(w: World, x: Side, e: Event)
    requires Redials(w, x, e)
    ensures e.Timer?
  {
  }

  // ----- the theorem -----

  /** Both ends are sound, trust each other, have no session with each other yet, have room for
      one, and each has a live dial of its own; nothing of either connection has been reported. */
  ghost predicate AboutToCross(k: Crossing, s: Pair) {
    k.Fits() && s.fl.others == s.fh.others && Ready(s.low, k.low, s.fl, s.spare) && Ready(s.high, k.high, s.fh, s.spare)
  }

  ghost predicate Ready(w: World, x: Side, f: Flight, spare: nat) {
    var r := w.rt;
    && Inv(w) && r.running && x.Fits(r.config.self)
    && w.store.IsTrusted(x.peer) && w.store.Generation(x.peer) == x.generation
    && f.pa && f.pb == f.others && |f.pb| == 1 && x.a !in f.pb + r.closed && DialPending(r.dials, x, f)
    && Existing(r, x.peer).None? && (forall sid | sid in r.tasks.sessions :: r.tasks.sessions[sid].conn != x.a)
    && |r.sessions| < r.config.maxSessions && r.sched.HasRoom(x.peer) && r.tasks.accept > 0
    && r.tasks.Owned() + 1 + spare < MAX_OWNED_TASKS && r.nextSession + 2 + spare <= U64_MAX
  }

  lemma ReadyIsSideInv(w: World, x: Side, f: Flight, spare: nat)
    requires Ready(w, x, f, spare)
    ensures SideInv(w, x, f, spare)
  {
    AgreesIsLone(w.rt, x.peer);
    OneMore(f.pb, x.a);
    assert f.Coming(x) == f.pb + {x.a};
    hide Inv, Existing;
  }

  /** `t` is reached from `s` by these moves. */
  ghost predicate Reaches(c: Codec, k: Crossing, s: Pair, ms: seq<Move>, t: Pair)
    decreases |ms|
  {
    if ms == [] then s == t
    else Allowed(k, s, ms[0]) && Reaches(c, k, Moved(c, k, s, ms[0]), ms[1..], t)
  }

  /** How many of the moves are not the timer's. */
  function Busy(ms: seq<Move>): nat {
    if ms == [] then 0 else Cost(ms[0]) + Busy(ms[1..])
  }

  /** What must still happen: results come in, and sessions whose connection is gone end. */
  predicate Owed(w: World, e: Event) {
    || e.DialEnded? || e.Incoming?
    || (e.SessionEnded? && e.sid in w.rt.tasks.sessions && w.rt.tasks.sessions[e.sid].conn in w.rt.closed)
  }

  /** Nothing more is owed at either end. */
  ghost predicate Quiescent(k: Crossing, s: Pair) {
    && (forall e, conn | Allowed(k, s, AtLow(e, conn)) :: !Owed(s.low, e))
    && (forall e, conn | Allowed(k, s, AtHigh(e, conn)) :: !Owed(s.high, e))
  }

  /** This end holds `a` as its one session with the peer, runs no session task for any other
      connection, and has let go of all others. */
  ghost predicate HoldsOnly(w: World, x: Side, others: set<ConnId>) {
    var e := Existing(w.rt, x.peer);
    && e.Some? && e.value in w.rt.sessions && w.rt.sessions[e.value].conn == x.a && w.rt.sessions[e.value].origin == x.Kept()
    && (forall sid | sid in w.rt.sessions && w.rt.sessions[sid].device == x.peer :: sid == e.value)
    && (forall sid | sid in w.rt.tasks.sessions && w.rt.tasks.sessions[sid].conn in {x.a} + others :: sid == e.value)
    && x.a !in w.rt.closed && others <= w.rt.closed
  }

  lemma {:induction false} CrossRun(c: Codec, k: Crossing, s: Pair, ms: seq<Move>, t: Pair)
    requires k.Fits() && CrossInv(k, s)
    ensures Reaches(c, k, s, ms, t) ==> CrossInv(k, t) && Busy(ms) + Remaining(k, t) <= Remaining(k, s)
    decreases |ms|
  {
    if ms != [] && Reaches(c, k, s, ms, t) {
      hide CrossInv, Remaining, Moved, Allowed, Cost;
      CrossStep(c, k, s, ms[0]);
      CrossRun(c, k, Moved(c, k, s, ms[0]), ms[1..], t);
    }
  }

  /** An end that is owed nothing has had all its results and ended every session it lost. */
  lemma IdleIsDone(w: World, x: Side, f: Flight, farClosed: set<ConnId>)
    requires forall e: Event, conn | May(w, x, f, e, conn, farClosed) :: !Owed(w, e)
    ensures f.Coming(x) == {}
    ensures forall sid | sid in w.rt.tasks.sessions :: w.rt.tasks.sessions[sid].conn !in f.others * w.rt.closed
  {
    var env := Env(0, 0, true, None);
    forall conn ensures conn !in f.Coming(x) {
      assert !May(w, x, f, DialEnded(x.peer, f.token, Ok(x.Newcomer(conn)), env), conn, farClosed);
      assert !May(w, x, f, Incoming(Ok(x.Newcomer(conn)), env), conn, farClosed);
    }
    forall sid | sid in w.rt.tasks.sessions ensures w.rt.tasks.sessions[sid].conn !in f.others * w.rt.closed {
      if w.rt.tasks.sessions[sid].conn in w.rt.closed {
        assert !May(w, x, f, SessionEnded(sid, Network, env), 0, farClosed);
      }
    }
  }

  lemma IdleHoldsOnly(w: World, x: Side, f: Flight, spare: nat, farClosed: set<ConnId>)
    requires SideInv(w, x, f, spare) && forall e: Event, conn | May(w, x, f, e, conn, farClosed) :: !Owed(w, e)
    ensures HoldsOnly(w, x, f.others) && !f.pa
  {
    hide Inv, Existing, May, Room, DialPending;
    IdleIsDone(w, x, f, farClosed);
    assert !f.pa by {
      assert f.pa ==> x.a in f.Coming(x);
    }
    assert f.pb <= f.Coming(x);
  }

  /** Whatever the order: neither end ever closes the kept connection, and all but so many moves are
      the timer's. When nothing more is owed, both ends hold only the kept connection, and the timer
      redials no more. */
  lemma CrossDialConverges(c: Codec, k: Crossing, s: Pair, ms: seq<Move>, t: Pair)
    requires AboutToCross(k, s)
    ensures Reaches(c, k, s, ms, t) ==>
      && k.low.a !in t.low.rt.closed && k.low.a !in t.high.rt.closed
      && Busy(ms) <= Remaining(k, s)
      && (Quiescent(k, t) ==>
            && HoldsOnly(t.low, k.low, t.fl.others) && HoldsOnly(t.high, k.high, t.fh.others)
            && forall e: Event, conn | Allowed(k, t, AtHigh(e, conn)) :: !Redials(t.high, k.high, e))
  {
    hide Ready, SideInv, May, HoldsOnly, Remaining, Reaches, Redials;
    ReadyIsSideInv(s.low, k.low, s.fl, s.spare);
    ReadyIsSideInv(s.high, k.high, s.fh, s.spare);
    CrossRun(c, k, s, ms, t);
    if Reaches(c, k, s, ms, t) {
      NotClosed(t.low, k.low, t.fl, t.spare);
      NotClosed(t.high, k.high, t.fh, t.spare);
      if Quiescent(k, t) {
        RestHolds(c, k, t);
      }
    }
  }

  lemma RestHolds(c: Codec, k: Crossing, t: Pair)
    requires k.Fits() && CrossInv(k, t) && Quiescent(k, t)
    ensures HoldsOnly(t.low, k.low, t.fl.others) && HoldsOnly(t.high, k.high, t.fh.others)
    ensures forall e: Event, conn | Allowed(k, t, AtHigh(e, conn)) :: !Redials(t.high, k.high, e)
  {
    hide SideInv, May, HoldsOnly, Redials;
    forall e: Event, conn | May(t.low, k.low, t.fl, e, conn, t.high.rt.closed) ensures !Owed(t.low, e) {
      assert Allowed(k, t, AtLow(e, conn));
    }
    forall e: Event, conn | May(t.high, k.high, t.fh, e, conn, t.low.rt.closed) ensures !Owed(t.high, e) {
      if Redials(t.high, k.high, e) {
        OnlyTimersRedial(t.high, k.high, e);
      } else {
        assert Allowed(k, t, AtHigh(e, conn));
      }
    }
    IdleHoldsOnly(t.low, k.low, t.fl, t.spare, t.high.rt.closed);
    IdleHoldsOnly(t.high, k.high, t.fh, t.spare, t.low.rt.closed);
    forall e: Event, conn | Allowed(k, t, AtHigh(e, conn)) ensures !Redials(t.high, k.high, e) {
      LowStays(c, t.high, k.high, t.fh, t.spare, e, conn, t.low.rt.closed);
    }
  }

  /** A daemon that has just started over a store and manages one trusted peer. */
  function Started(self: DeviceId, peer: DeviceId, store: Store): World {
    World(Runtime(Config(self, 1, 1, 1, 1, 1), true, map[], map[], map[], Sched(map[peer := NewPeer(0)], 0), 1, 1, 1,
                  Tasks(1, 0, {}, map[], map[]), {}, []), store)
  }

  /** Its first step is a caller's dial of the peer. */
  function FirstDial(peer: DeviceId): Event {
    Dial(peer, false, 0, Env(0, 0, true, None))
  }

  ghost function AfterFirstDial(c: Codec, self: DeviceId, peer: DeviceId, store: Store): World {
    Run(c, Started(self, peer, store), [FirstDial(peer)])
  }

  lemma DialledShape(c: Codec, self: DeviceId, peer: DeviceId, store: Store)
    requires self != peer && store.IsTrusted(peer)
    ensures var w, s := Started(self, peer, store), AfterFirstDial(c, self, peer, store);
            && s.store == store && s.rt == w.rt.(dials := s.rt.dials, nextDial := 2, sched := s.rt.sched, tasks := s.rt.tasks)
            && s.rt.tasks == Tasks(1, 0, {(peer, 1)}, map[], map[]) && s.rt.sched.HasRoom(peer)
            && peer in s.rt.dials && s.rt.dials[peer] == DialRecord(1, false, [0], false)
  {
    var w := Started(self, peer, store);
    assert [FirstDial(peer)][..0] == [];
    assert Run(c, w, [FirstDial(peer)]) == Next(c, w, FirstDial(peer));
    assert {} + {(peer, 1)} == {(peer, 1)};
  }

  lemma StartedJust(self: DeviceId, peer: DeviceId, store: Store)
    ensures JustStarted(Started(self, peer, store))
  {
  }

  lemma ShapeIsReady(w: World, x: Side, f: Flight, spare: nat)
    requires Inv(w) && w.rt.running && x.Fits(w.rt.config.self) && w.rt.config.maxSessions == 1 && w.rt.nextSession == 1
    requires w.store.IsTrusted(x.peer) && x.generation == w.store.Generation(x.peer)
    requires w.rt.sessions == map[] && w.rt.closed == {} && w.rt.sched.HasRoom(x.peer)
    requires w.rt.tasks == Tasks(1, 0, {(x.peer, 1)}, map[], map[])
    requires x.peer in w.rt.dials && w.rt.dials[x.peer] == DialRecord(1, false, [0], false)
    requires f.pa && f.token == 1 && f.others == f.pb && |f.pb| == 1 && x.a !in f.pb && spare <= 1000
    ensures Ready(w, x, f, spare)
  {
    hide Inv;
  }

  lemma DialledIsReady(c: Codec, self: DeviceId, x: Side, f: Flight, store: Store, spare: nat)
    requires x.Fits(self) && store.IsTrusted(x.peer) && x.generation == store.Generation(x.peer)
    requires f.pa && f.token == 1 && f.others == f.pb && |f.pb| == 1 && x.a !in f.pb && spare <= 1000
    ensures JustStarted(Started(self, x.peer, store)) && Ready(AfterFirstDial(c, self, x.peer, store), x, f, spare)
    ensures AfterFirstDial(c, self, x.peer, store).rt.config.self == self
  {
    hide Inv, Next, Run, Ready, JustStarted;
    DialledShape(c, self, x.peer, store);
    StartedJust(self, x.peer, store);
    EveryRunIsSound(c, Started(self, x.peer, store), [FirstDial(x.peer)]);
    ShapeIsReady(AfterFirstDial(c, self, x.peer, store), x, f, spare);
  }

  /** Any two devices that trust each other come to be about to cross, over any two connections,
      when just after their start each dials the other. */
  lemma CrossingsExist(c: Codec, l: DeviceId, h: DeviceId, storeL: Store, storeH: Store, a: ConnId, b: ConnId, spare: nat)
    returns (k: Crossing, s: Pair)
    requires l < h && a != b && storeL.IsTrusted(h) && storeH.IsTrusted(l) && spare <= 1000
    ensures AboutToCross(k, s) && s.low.rt.config.self == l && s.high.rt.config.self == h && k.low.a == a && s.fl.others == {b}
    ensures JustStarted(Started(l, h, storeL)) && s.low == AfterFirstDial(c, l, h, storeL)
    ensures JustStarted(Started(h, l, storeH)) && s.high == AfterFirstDial(c, h, l, storeH) && s.spare == spare
  {
    hide JustStarted, Ready, AfterFirstDial, Started;
    k := Crossing(Side(h, a, true, storeL.Generation(h)), Side(l, a, false, storeH.Generation(l)));
    var f := Flight(true, {b}, {b}, 1);
    s := Pair(AfterFirstDial(c, l, h, storeL), AfterFirstDial(c, h, l, storeH), f, f, spare);
    DialledIsReady(c, l, k.low, f, storeL, spare);
    DialledIsReady(c, h, k.high, f, storeH, spare);
  }
}
