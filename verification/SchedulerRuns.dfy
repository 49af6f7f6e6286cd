/** The dial scheduler over whole runs of the supervisor: dials are spaced, and a waiting peer is
    overtaken by any other at most once. */
module SchedulerRuns {
  import opened Common
  import opened Connectivity
  import opened TrustJournal
  import opened Supervisor
  import opened Registry

  /** The clock reading an event carries. */
  function Clock(e: Event): Option<Instant> {
    match e
    case Timer(env) => Some(env.now)
    case Dial(_, _, _, env) => Some(env.now)
    case Hint(_, now) => Some(now)
    case DisconnectSession(_, now) => Some(now)
    case Incoming(_, env) => Some(env.now)
    case DialEnded(_, _, _, env) => Some(env.now)
    case PairingEnded(_, _, env) => Some(env.now)
    case SessionEnded(_, _, env) => Some(env.now)
    case _ => None
  }

  /** Whether an event happens after `t`. */
  predicate After(e: Event, t: int) {
    Clock(e).Some? ==> t < Clock(e).value
  }

  /** The dial the supervisor's timer starts in a step, if it starts one. */
  ghost function Starts(w: World, e: Event): Option<DeviceId> {
    if w.rt.running && e.Timer? && |w.rt.dials| < w.rt.config.maxDials then w.rt.sched.Pick(e.env.now) else None
  }

  // ----- what a step does to the scheduler -----

  predicate DueLater(due: Option<Instant>, t: int) {
    due.Some? ==> t < due.value
  }

  /** The next start stays where it is, and a peer becomes due only after `t`. */
  ghost predicate Calm(s: Sched, s': Sched, t: int) {
    && s'.nextStart == s.nextStart
    && (forall d | d in s'.peers :: (d in s.peers && s'.peers[d].due == s.peers[d].due) || DueLater(s'.peers[d].due, t))
  }

  lemma CalmCompose(s: Sched, s1: Sched, s2: Sched, t: int)
    requires Calm(s, s1, t) && Calm(s1, s2, t)
    ensures Calm(s, s2, t)
  {
  }

  /** Whatever is done to a peer leaves its due time, takes it away, or sets a later one. */
  lemma PeerIsCalm(p: Peer, failure: Failure, sid: SessionId, now: Instant, sample: nat, t: int)
    requires t < now
    ensures DueLater(NewPeer(now).due, t) && DueLater(p.Connect(sid, now).due, t) && DueLater(p.Dialling().due, t)
    ensures DueLater(p.Fail(failure, now, sample).due, t) && DueLater(p.Lose(now, sample).due, t)
    ensures p.Resume(now).due == p.due || DueLater(p.Resume(now).due, t)
    ensures DueLater(p.Suspend().Lose(now, sample).due, t) && DueLater(p.Lose(now, sample).Fail(failure, now, 0).due, t)
  {
  }

  lemma SetIsCalm(s: Sched, d: DeviceId, p: Peer, t: int)
    requires DueLater(p.due, t) || (d in s.peers && p.due == s.peers[d].due)
    ensures Calm(s, s.Set(d, p), t)
  {
  }

  lemma InsertIsCalm(s: Sched, d: DeviceId, now: Instant, t: int)
    requires t < now
    ensures Calm(s, s.Insert(d, now), t)
  {
  }

  lemma MarksAreCalm(r: Runtime, d: DeviceId, code: Code, env: Env, t: int)
    requires t < env.now
    ensures Calm(r.sched, MarkDialling(r, d).sched, t) && Calm(r.sched, MarkFailed(r, d, code, env).sched, t)
    ensures Calm(r.sched, MarkLost(r, d, env.now, env.sample).sched, t)
  {
    hide Calm;
    if d in r.sched.peers {
      var p := r.sched.peers[d];
      PeerIsCalm(p, Category(code), 0, env.now, env.sample, t);
      SetIsCalm(r.sched, d, p.Dialling(), t);
      SetIsCalm(r.sched, d, p.Fail(Category(code), env.now, env.sample), t);
      SetIsCalm(r.sched, d, p.Lose(env.now, env.sample), t);
    } else {
      StillIsCalm(r.sched, t);
    }
  }

  lemma StillIsCalm(s: Sched, t: int)
    ensures Calm(s, s, t)
  {
  }

  lemma InstallIsCalm(r: Runtime, c: Candidate, origin: Origin, existing: Option<SessionId>, env: Env, t: int)
    requires t < env.now && (existing.Some? ==> existing.value in r.sessions)
    ensures Calm(r.sched, Install(Displace(r, c.device, existing, env), c, origin, env).sched, t)
  {
    hide Calm, MarkLost;
    var d, base := c.device, Displace(r, c.device, existing, env);
    StillIsCalm(r.sched, t);
    MarksAreCalm(r, d, Internal, env, t);
    assert Calm(r.sched, base.sched, t);
    StillIsCalm(base.sched, t);
    if d in base.sched.peers {
      PeerIsCalm(base.sched.peers[d], Network, base.nextSession, env.now, 0, t);
      SetIsCalm(base.sched, d, base.sched.peers[d].Connect(base.nextSession, env.now), t);
    }
    CalmCompose(r.sched, base.sched, Install(base, c, origin, env).sched, t);
  }

  lemma RegisterIsCalm(r: Runtime, store: Store, c: Candidate, origin: Origin, env: Env, t: int)
    requires t < env.now
    ensures Calm(r.sched, RegisterSession(r, store, c, origin, env).0.sched, t)
  {
    hide Calm, Install, Displace, Existing, Screen, Judge;
    StillIsCalm(r.sched, t);
    InsertIsCalm(r.sched, c.device, env.now, t);
    var base := r.(sched := r.sched.Insert(c.device, env.now));
    var v := Judge(base, c, origin);
    if v.Admit? {
      InstallIsCalm(base, c, origin, v.existing, env, t);
      CalmCompose(r.sched, base.sched, Install(Displace(base, c.device, v.existing, env), c, origin, env).sched, t);
    }
  }

  lemma PendingIsCalm(r: Runtime, store: Store, c: Candidate, origin: Origin)
    ensures RegisterPending(r, store, c, origin).0.sched == r.sched
  {
  }

  lemma DialDoneIsCalm(r: Runtime, store: Store, d: DeviceId, token: nat, result: Result<Candidate, Code>, env: Env, t: int)
    requires t < env.now
    ensures Calm(r.sched, DialDone(r, store, d, token, result, env).sched, t)
  {
    hide Calm, RegisterSession, RegisterPending, Canonical, MarkFailed;
    StillIsCalm(r.sched, t);
    if d in r.dials && r.dials[d].token == token {
      var r2 := TakeDial(r, d, token);
      if result.Ok? {
        RegisterIsCalm(r2, store, result.value, Outbound, env, t);
        PendingIsCalm(r2, store, result.value, Outbound);
      }
      var (r3, answer) := SettleDial(r2, store, d, r.dials[d].pairing, result, env);
      assert Calm(r.sched, r3.sched, t);
      if answer.Refused? {
        MarksAreCalm(r3, d, answer.code, env, t);
        CalmCompose(r.sched, r3.sched, MarkFailed(r3, d, answer.code, env).sched, t);
      }
    }
  }

  lemma StartDialIsCalm(r: Runtime, d: DeviceId, pairing: bool, env: Env, t: int)
    requires t < env.now
    ensures Calm(r.sched, StartDial(r, d, pairing, env).0.sched, t)
  {
    hide Calm, MarkDialling, Busy;
    StillIsCalm(r.sched, t);
    MarksAreCalm(r, d, Internal, env, t);
    MarksAreCalm(AddDial(r, d, pairing), d, Internal, env, t);
  }

  lemma StartIsCalm(r: Runtime, store: Store, d: DeviceId, pairing: bool, manual: bool, env: Env, t: int)
    requires t < env.now
    ensures Calm(r.sched, StartOutbound(r, store, d, pairing, manual, env).0.sched, t)
  {
    hide Calm, StartDial, Canonical, Busy;
    StillIsCalm(r.sched, t);
    if DialRefusal(r, store, d, pairing).None? {
      StartDialIsCalm(r, d, true, env, t);
      if !pairing {
        InsertIsCalm(r.sched, d, env.now, t);
        var r1 := r.(sched := r.sched.Insert(d, env.now));
        var r2 := if manual then SetPeer(r1, d, r1.sched.peers[d].Resume(env.now)) else r1;
        PeerIsCalm(r1.sched.peers[d], Network, 0, env.now, 0, t);
        SetIsCalm(r1.sched, d, r1.sched.peers[d].Resume(env.now), t);
        StillIsCalm(r1.sched, t);
        CalmCompose(r.sched, r1.sched, r2.sched, t);
        StartDialIsCalm(r2, d, false, env, t);
        CalmCompose(r.sched, r2.sched, StartDial(r2, d, false, env).0.sched, t);
      }
    }
  }

  lemma SpawnIsCalm(r: Runtime, store: Store, d: DeviceId, pairing: bool, reply: Option<ReplyId>, env: Env, t: int)
    requires t < env.now
    ensures Calm(r.sched, SpawnOutbound(r, store, d, pairing, reply, env).sched, t)
  {
    hide Calm, StartOutbound, Canonical, MarkFailed;
    StartIsCalm(r, store, d, pairing, reply.Some?, env, t);
    var (s, result) := StartOutbound(r, store, d, pairing, reply.Some?, env);
    if result.Err? {
      MarksAreCalm(s, d, result.error, env, t);
      CalmCompose(r.sched, s.sched, MarkFailed(s, d, result.error, env).sched, t);
    }
  }

  lemma IncomingIsCalm(r: Runtime, store: Store, result: Result<Candidate, Code>, env: Env, t: int)
    requires t < env.now
    ensures Calm(r.sched, IncomingDone(r, store, result, env).sched, t)
  {
    hide Calm, RegisterSession, RegisterPending;
    StillIsCalm(r.sched, t);
    if result.Ok? {
      var r1 := r.(tasks := r.tasks.(accept := if r.tasks.accept == 0 then 0 else r.tasks.accept - 1));
      RegisterIsCalm(r1, store, result.value, Inbound, env, t);
      PendingIsCalm(r1, store, result.value, Inbound);
    }
  }

  lemma PairingIsCalm(r: Runtime, store: Store, pid: PairingId, outcome: Option<Candidate>, env: Env, t: int)
    requires pid in r.tasks.pairings && t < env.now
    ensures Calm(r.sched, PairingDone(r, store, pid, outcome, env).sched, t)
  {
    hide Calm, RegisterSession;
    StillIsCalm(r.sched, t);
    if outcome.Some? && pid in r.pending {
      var r1 := r.(tasks := r.tasks.(pairings := r.tasks.pairings - {pid}), pending := r.pending - {pid});
      RegisterIsCalm(r1, store, outcome.value, r.pending[pid].origin, env, t);
    }
  }

  lemma SessionEndIsCalm(r: Runtime, sid: SessionId, failure: Failure, env: Env, t: int)
    requires sid in r.tasks.sessions && t < env.now
    ensures Calm(r.sched, SessionDone(r, sid, failure, env).sched, t)
  {
    hide Calm;
    StillIsCalm(r.sched, t);
    var p := PeerOf(r, r.tasks.sessions[sid].device);
    PeerIsCalm(p, failure, 0, env.now, env.sample, t);
    if sid in r.sessions {
      var q := p.Lose(env.now, env.sample);
      SetIsCalm(r.sched, r.sessions[sid].device, q, t);
      SetIsCalm(r.sched, r.sessions[sid].device, q.Fail(failure, env.now, 0), t);
    }
  }

  lemma DisconnectIsCalm(r: Runtime, sid: SessionId, now: Instant, t: int)
    requires t < now
    ensures Calm(r.sched, Disconnect(r, sid, now).sched, t)
  {
    hide Calm;
    StillIsCalm(r.sched, t);
    if sid in r.sessions {
      var d := r.sessions[sid].device;
      PeerIsCalm(PeerOf(r, d), Network, 0, now, 0, t);
      SetIsCalm(r.sched, d, PeerOf(r, d).Suspend().Lose(now, 0), t);
    }
  }

  lemma RemovalIsCalm(r: Runtime, d: DeviceId, t: int)
    ensures Calm(r.sched, Invalidate(r, d).sched, t) && Calm(r.sched, Shutdown(r).sched, t)
  {
    hide Waiters;
  }

  /** A step after `t` that starts no dial is calm. */
  lemma NextIsCalm(c: Codec, w: World, e: Event, t: int)
    requires After(e, t) && Starts(w, e).None?
    ensures Calm(w.rt.sched, Next(c, w, e).rt.sched, t)
  {
    hide IncomingDone, PairingDone, SpawnOutbound, DialDone, Invalidate, Disconnect, Shutdown, SessionDone, Resolving, Commit, Calm;
    var r, store := w.rt, w.store;
    StillIsCalm(r.sched, t);
    match e {
      case Dial(d, pairing, reply, env) => SpawnIsCalm(r, store, d, pairing, Some(reply), env, t);
      case Hint(d, now) =>
        if d in r.sched.peers {
          PeerIsCalm(r.sched.peers[d], Network, 0, now, 0, t);
          SetIsCalm(r.sched, d, r.sched.peers[d].Resume(now), t);
        }
      case DisconnectSession(sid, now) => DisconnectIsCalm(r, sid, now, t);
      case RevokePeer(d, io) => RemovalIsCalm(r, d, t);
      case ForgetPeer(d, io) => RemovalIsCalm(r, d, t);
      case Incoming(result, env) => IncomingIsCalm(r, store, result, env, t);
      case DialEnded(d, token, result, env) => DialDoneIsCalm(r, store, d, token, result, env, t);
      case PairingEnded(pid, outcome, env) =>
        if pid in r.tasks.pairings {
          PairingIsCalm(r, store, pid, outcome, env, t);
        }
      case SessionEnded(sid, failure, env) =>
        if sid in r.tasks.sessions {
          SessionEndIsCalm(r, sid, failure, env, t);
        }
      case Stop => RemovalIsCalm(r, 0, t);
      case _ =>
    }
  }

  /** One that does start a dial first takes that peer, and is calm from there. */
  lemma StartTakes(c: Codec, w: World, e: Event, t: int)
    requires After(e, t) && Starts(w, e).Some?
    ensures Calm(w.rt.sched.TakeDue(e.env.now), Next(c, w, e).rt.sched, t)
  {
    hide SpawnOutbound, Calm;
    var base := w.rt.(sched := w.rt.sched.TakeDue(e.env.now));
    SpawnIsCalm(base, w.store, Starts(w, e).value, false, None, e.env, t);
  }

  // ----- runs -----

  /** No event of the run from `i` on happens at or before `t`, and the clock never goes back. */
  ghost predicate ClockRuns(es: seq<Event>, i: nat, t: int) {
    && (forall k | i <= k < |es| :: After(es[k], t))
    && (forall k, l | 0 <= k < l < |es| && Clock(es[k]).Some? && Clock(es[l]).Some? :: Clock(es[k]).value <= Clock(es[l]).value)
  }

  ghost function At(c: Codec, w: World, es: seq<Event>, i: nat): World
    requires i <= |es|
  {
    Run(c, w, es[..i])
  }

  ghost function StartedAt(c: Codec, w: World, es: seq<Event>, i: nat): Option<DeviceId>
    requires i < |es|
  {
    Starts(At(c, w, es, i), es[i])
  }

  lemma AtNext(c: Codec, w: World, es: seq<Event>, i: nat)
    requires 0 < i <= |es|
    ensures At(c, w, es, i) == Next(c, At(c, w, es, i - 1), es[i - 1])
  {
    assert es[..i][..i - 1] == es[..i - 1];
  }

  /** No step moves the earliest permitted start back. */
  lemma {:induction false} NextStartHolds(c: Codec, w: World, es: seq<Event>, i: nat, j: nat)
    requires ClockRuns(es, 0, -1) && i < j <= |es| && StartedAt(c, w, es, i).Some?
    ensures At(c, w, es, j).rt.sched.nextStart >= Clock(es[i]).value + START_SPACING
    decreases j
  {
    hide At, Next;
    var k := j - 1;
    AtNext(c, w, es, j);
    if i < k {
      NextStartHolds(c, w, es, i, k);
    }
    if StartedAt(c, w, es, k).Some? {
      StartTakes(c, At(c, w, es, k), es[k], -1);
    } else {
      NextIsCalm(c, At(c, w, es, k), es[k], -1);
    }
  }

  /** RATE LIMIT. In every run of the supervisor, two dials of its timer are started at least
      100 ms apart. */
  lemma StartsAreSpaced(c: Codec, w: World, es: seq<Event>, i: nat, j: nat)
    requires ClockRuns(es, 0, -1) && i < j < |es|
    requires StartedAt(c, w, es, i).Some? && StartedAt(c, w, es, j).Some?
    ensures Clock(es[j]).value >= Clock(es[i]).value + START_SPACING
  {
    hide At;
    NextStartHolds(c, w, es, i, j);
  }

  predicate NotDueBy(s: Sched, q: DeviceId, t: int) {
    q in s.peers ==> DueLater(s.peers[q].due, t)
  }

  lemma CalmKeepsBehind(s: Sched, s': Sched, q: DeviceId, t: int)
    requires Calm(s, s', t) && NotDueBy(s, q, t)
    ensures NotDueBy(s', q, t)
  {
  }

  lemma TakenIsBehind(s: Sched, now: Instant, q: DeviceId, t: int)
    requires s.Pick(now) == Some(q) || (s.Pick(now).Some? && NotDueBy(s, q, t))
    ensures NotDueBy(s.TakeDue(now), q, t)
  {
  }

  /** Once started, a peer can only be due again after the current time. */
  lemma {:induction false} StaysBehind(c: Codec, w: World, es: seq<Event>, q: DeviceId, t: Instant, i: nat, j: nat)
    requires ClockRuns(es, i, t) && i < j <= |es| && StartedAt(c, w, es, i) == Some(q)
    ensures NotDueBy(At(c, w, es, j).rt.sched, q, t)
    decreases j
  {
    hide At, Next, Calm, NotDueBy, Clock;
    var k := j - 1;
    AtNext(c, w, es, j);
    if i < k {
      StaysBehind(c, w, es, q, t, i, k);
    }
    var v := At(c, w, es, k);
    if StartedAt(c, w, es, k).Some? {
      StartTakes(c, v, es[k], t);
      TakenIsBehind(v.rt.sched, es[k].env.now, q, t);
      CalmKeepsBehind(v.rt.sched.TakeDue(es[k].env.now), At(c, w, es, j).rt.sched, q, t);
    } else {
      NextIsCalm(c, v, es[k], t);
      CalmKeepsBehind(v.rt.sched, At(c, w, es, j).rt.sched, q, t);
    }
  }

  /** NO STARVATION. In every run, once the clock is past the time `t` a peer `p` fell due at, and
      while `p` keeps waiting, the timer starts any other peer ahead of it at most once. */
  lemma OvertakenAtMostOnce(c: Codec, w: World, es: seq<Event>, p: DeviceId, q: DeviceId, t: Instant, i: nat, j: nat)
    requires ClockRuns(es, i, t) && i < j < |es| && p != q
    requires p in At(c, w, es, j).rt.sched.peers && At(c, w, es, j).rt.sched.peers[p].due == Some(t)
    requires StartedAt(c, w, es, i) == Some(q)
    ensures StartedAt(c, w, es, j) != Some(q)
  {
    hide At;
    StaysBehind(c, w, es, q, t, i, j);
    if es[j].Timer? {
      assert At(c, w, es, j).rt.sched.DueBy(p, es[j].env.now);
    }
  }
}
