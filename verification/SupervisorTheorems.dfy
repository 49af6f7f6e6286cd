/** SUSPENSION. After a local disconnect no automatic dial to that peer starts until a local
    connect request, the loss of its trust, or shutdown. */
module Suspension {
  import opened Common
  import opened Connectivity
  import opened TrustJournal
  import opened Supervisor
  import opened Registry
  import opened SupervisorRuns

  /** What ends a suspension: asking to connect, withdrawing trust, stopping the daemon. */
  ghost predicate Releases(c: Codec, w: World, e: Event, d: DeviceId) {
    || (e.Dial? && e.d == d && !e.pairing)
    || (e.RevokePeer? && e.d == d && Commit(c, w.store, Revoke(d), None, e.io).1.Ok?)
    || (e.ForgetPeer? && e.d == d && Commit(c, w.store, Forget(d), None, e.io).1.Ok?)
    || e.Stop?
  }

  lemma SeatLeavesResting(r: Runtime, c: Candidate, origin: Origin, env: Env, x: DeviceId)
    requires c.device in r.sched.peers && Resting(r, x)
    ensures Resting(Seat(r, c, origin, env).0, x)
  {
    hide Existing, Judge, AddSession, Displace, Install;
    var v := Judge(r, c, origin);
    if v.Admit? {
      AddedShape(r, c, origin, v.existing, env);
      InstallIsAdd(Displace(r, c.device, v.existing, env), c, origin, env);
    }
  }

  lemma RegisterLeavesResting(r: Runtime, store: Store, c: Candidate, origin: Origin, env: Env, x: DeviceId)
    requires Resting(r, x)
    ensures Resting(RegisterSession(r, store, c, origin, env).0, x)
  {
    hide Seat;
    if Screen(r, store, c).None? {
      SeatLeavesResting(r.(sched := r.sched.Insert(c.device, env.now)), c, origin, env, x);
    }
  }

  lemma MarksLeaveResting(r: Runtime, d: DeviceId, code: Code, env: Env, x: DeviceId)
    requires Resting(r, x)
    ensures Resting(MarkDialling(r, d), x) && Resting(MarkFailed(r, d, code, env), x)
  {
  }

  lemma TellLeavesResting(r: Runtime, d: DeviceId, rec: DialRecord, answer: Answer, env: Env, x: DeviceId)
    requires Resting(r, x)
    ensures Resting(TellWaiters(r, d, rec, answer, env), x)
  {
    hide Canonical, MarkFailed;
    if answer.Refused? {
      MarksLeaveResting(r, d, answer.code, env, x);
    }
  }

  lemma DialDoneLeavesResting(r: Runtime, store: Store, d: DeviceId, token: nat, result: Result<Candidate, Code>,
                              env: Env, x: DeviceId)
    requires Resting(r, x)
    ensures Resting(DialDone(r, store, d, token, result, env), x)
  {
    hide RegisterSession, TakeDial, TellWaiters;
    TakenShape(r, d, token);
    if result.Ok? {
      RegisterLeavesResting(TakeDial(r, d, token), store, result.value, Outbound, env, x);
    }
    if d in r.dials {
      var (s, answer) := SettleDial(TakeDial(r, d, token), store, d, r.dials[d].pairing, result, env);
      TellLeavesResting(s, d, r.dials[d], answer, env, x);
    }
  }

  lemma StartDialLeavesResting(r: Runtime, d: DeviceId, pairing: bool, env: Env, x: DeviceId)
    requires Resting(r, x)
    ensures Resting(StartDial(r, d, pairing, env).0, x)
  {
  }

  lemma StartLeavesResting(r: Runtime, store: Store, d: DeviceId, pairing: bool, manual: bool, env: Env, x: DeviceId)
    requires Resting(r, x) && (x == d ==> pairing || !manual)
    ensures Resting(StartOutbound(r, store, d, pairing, manual, env).0, x)
  {
    hide Canonical, StartDial, Busy;
    if DialRefusal(r, store, d, pairing).None? {
      if pairing {
        StartDialLeavesResting(r, d, true, env, x);
      } else {
        var r1 := r.(sched := r.sched.Insert(d, env.now));
        var r2 := if manual then SetPeer(r1, d, r1.sched.peers[d].Resume(env.now)) else r1;
        assert Resting(r1, x) && Resting(r2, x);
        StartDialLeavesResting(r2, d, false, env, x);
      }
    }
  }

  /** Only a manual, non-pairing dial resumes a peer, and only its own. */
  lemma SpawnLeavesResting(r: Runtime, store: Store, d: DeviceId, pairing: bool, reply: Option<ReplyId>, env: Env, x: DeviceId)
    requires Resting(r, x) && (x == d ==> pairing || reply.None?)
    ensures Resting(SpawnOutbound(r, store, d, pairing, reply, env), x)
  {
    hide Canonical, StartOutbound, MarkFailed;
    StartLeavesResting(r, store, d, pairing, reply.Some?, env, x);
    var (s, result) := StartOutbound(r, store, d, pairing, reply.Some?, env);
    if result.Err? {
      MarksLeaveResting(s, d, result.error, env, x);
    }
  }

  lemma FireLeavesResting(r: Runtime, store: Store, env: Env, x: DeviceId)
    requires Resting(r, x)
    ensures Resting(Fire(r, store, env), x)
  {
    hide SpawnOutbound;
    if |r.dials| < r.config.maxDials && r.sched.Pick(env.now).Some? {
      SpawnLeavesResting(r.(sched := r.sched.TakeDue(env.now)), store, r.sched.Pick(env.now).value, false, None, env, x);
    }
  }

  lemma CommandLeavesResting(c: Codec, w: World, e: Event, x: DeviceId)
    requires Resting(w.rt, x) && !Releases(c, w, e, x) && Held(w.rt.sessions, w.rt.tasks.sessions, w.rt.nextSession)
    requires e.Hint? || e.DisconnectSession? || e.RevokePeer? || e.ForgetPeer? || e.SessionEnded? || e.ConfirmPairing?
    ensures Resting(Next(c, w, e).rt, x)
  {
  }

  lemma StepLeavesResting(c: Codec, w: World, e: Event, x: DeviceId)
    requires Resting(w.rt, x) && !Releases(c, w, e, x) && Held(w.rt.sessions, w.rt.tasks.sessions, w.rt.nextSession)
    ensures Resting(Next(c, w, e).rt, x)
  {
    hide Held, RegisterSession, SpawnOutbound, Fire, DialDone, Commit, Withdraw, SessionDone, Disconnect, Remember, Confirm;
    var r, store := w.rt, w.store;
    match e {
      case Timer(env) => FireLeavesResting(r, store, env, x);
      case Dial(d, pairing, reply, env) => SpawnLeavesResting(r, store, d, pairing, Some(reply), env, x);
      case Incoming(result, env) =>
        if r.tasks.accept > 0 && result.Ok? {
          RegisterLeavesResting(r.(tasks := r.tasks.(accept := r.tasks.accept - 1)), store, result.value, Inbound, env, x);
        }
      case DialEnded(d, token, result, env) => DialDoneLeavesResting(r, store, d, token, result, env, x);
      case PairingEnded(pid, outcome, env) =>
        if pid in r.tasks.pairings && outcome.Some? && pid in r.pending {
          RegisterLeavesResting(r.(tasks := r.tasks.(pairings := r.tasks.pairings - {pid}), pending := r.pending - {pid}),
                                store, outcome.value, r.pending[pid].origin, env, x);
        }
      case IpcConnected => case IpcEnded => case PairingCommits(_, _, _) => case ConnectionLost(_) => case Stop =>
      case _ => CommandLeavesResting(c, w, e, x);
    }
  }

  ghost predicate Undisturbed(c: Codec, w: World, es: seq<Event>, d: DeviceId) {
    forall i | 0 <= i < |es| :: !Releases(c, Run(c, w, es[..i]), es[i], d)
  }

  lemma {:induction false} RunLeavesResting(c: Codec, w: World, es: seq<Event>, d: DeviceId)
    requires Inv(w) && Resting(w.rt, d) && Undisturbed(c, w, es, d)
    ensures Inv(Run(c, w, es)) && Resting(Run(c, w, es).rt, d)
  {
    hide Next, Inv, Releases, Resting;
    if es != [] {
      var before := es[..|es| - 1];
      assert forall i | 0 <= i < |before| :: before[..i] == es[..i];
      RunLeavesResting(c, w, before, d);
      NextKeeps(c, Run(c, w, before), es[|es| - 1]);
      InvHolds(Run(c, w, before));
      StepLeavesResting(c, Run(c, w, before), es[|es| - 1], d);
    }
  }

  lemma InvHolds(w: World)
    requires Inv(w)
    ensures Held(w.rt.sessions, w.rt.tasks.sessions, w.rt.nextSession)
  {
  }

  lemma DisconnectRests(r: Runtime, sid: SessionId, now: Instant)
    requires Sound(r, 0) && sid in r.sessions
    ensures Resting(Disconnect(r, sid, now), r.sessions[sid].device)
  {
  }

  /** Whatever inbound sessions, losses, failures, hints and late results follow a disconnect, the
      timer never picks that peer and no dial that could be retried is under way. */
  lemma DisconnectSuspendsDialling(c: Codec, w: World, sid: SessionId, now: Instant, es: seq<Event>, t: Instant)
    requires Inv(w) && w.rt.running && sid in w.rt.sessions
    ensures var d := w.rt.sessions[sid].device;
            var w1 := Next(c, w, DisconnectSession(sid, now));
            var r := Run(c, w1, es).rt;
            Undisturbed(c, w1, es, d) ==>
              && r.sched.Pick(t) != Some(d)
              && (d in r.dials ==> r.dials[d].cancelled || r.dials[d].pairing)
  {
    var d := w.rt.sessions[sid].device;
    var w1 := Next(c, w, DisconnectSession(sid, now));
    assert w1.rt == Disconnect(w.rt, sid, now);
    DisconnectRests(w.rt, sid, now);
    hide *;
    NextKeeps(c, w, DisconnectSession(sid, now));
    if Undisturbed(c, w1, es, d) {
      RunLeavesResting(c, w1, es, d);
      InvIsSound(Run(c, w1, es));
      NeverPicked(Run(c, w1, es).rt, d, t);
    }
  }

  lemma InvIsSound(w: World)
    requires Inv(w)
    ensures Sound(w.rt, 0)
  {
  }

  lemma NeverPicked(r: Runtime, d: DeviceId, t: Instant)
    requires Sound(r, 0) && Resting(r, d)
    ensures r.sched.Pick(t) != Some(d) && (d in r.dials ==> r.dials[d].cancelled || r.dials[d].pairing)
  {
  }
}

/** AUTHORIZATION SINCE ADMISSION. */
module Admission {
  import opened Common
  import opened Connectivity
  import opened TrustJournal
  import opened Supervisor
  import opened Registry
  import opened SupervisorRuns

  /** The step durably withdrew the peer's trust. */
  ghost predicate Withdraws(c: Codec, w: World, e: Event, d: DeviceId) {
    w.rt.running && ((e.RevokePeer? && e.d == d && Commit(c, w.store, Revoke(d), None, e.io).1.Ok?)
                     || (e.ForgetPeer? && e.d == d && Commit(c, w.store, Forget(d), None, e.io).1.Ok?))
  }

  predicate Counting(s: Store) {
    s.GenerationsBounded() && s.recordCount <= MAX_RECORDS
  }

  /** A step never lowers a generation, raises it on a forget, and lifts a revocation only then. */
  lemma StepGeneration(c: Codec, w: World, e: Event, d: DeviceId)
    requires Counting(w.store)
    ensures var s := Next(c, w, e).store;
            && Counting(s)
            && w.store.Generation(d) <= s.Generation(d)
            && (Withdraws(c, w, e, d) && e.ForgetPeer? ==> w.store.Generation(d) < s.Generation(d))
            && (Withdraws(c, w, e, d) && e.RevokePeer? ==> d in s.decisions && s.decisions[d].Revoked?)
            && (d in w.store.decisions && w.store.decisions[d].Revoked? && w.store.Generation(d) == s.Generation(d) ==>
                  d in s.decisions && s.decisions[d].Revoked?)
  {
    hide Fire, SpawnOutbound, IncomingDone, DialDone, PairingDone, SessionDone, Shutdown, Invalidate, Confirm,
         Disconnect, Remember, Record;
  }

  lemma {:induction false} GenerationsGrow(c: Codec, w: World, es: seq<Event>, d: DeviceId, i: nat)
    requires Counting(w.store) && i <= |es|
    ensures Counting(Run(c, w, es).store)
    ensures Run(c, w, es[..i]).store.Generation(d) <= Run(c, w, es).store.Generation(d)
    ensures Run(c, w, es[..i]).store.Generation(d) == Run(c, w, es).store.Generation(d)
            && d in Run(c, w, es[..i]).store.decisions && Run(c, w, es[..i]).store.decisions[d].Revoked?
            ==> d in Run(c, w, es).store.decisions && Run(c, w, es).store.decisions[d].Revoked?
  {
    hide Next, Counting;
    if i == |es| {
      assert es[..i] == es;
      if es != [] {
        GenerationsGrow(c, w, es[..|es| - 1], d, 0);
        StepGeneration(c, Run(c, w, es[..|es| - 1]), es[|es| - 1], d);
      }
    } else {
      var before := es[..|es| - 1];
      assert before[..i] == es[..i];
      GenerationsGrow(c, w, before, d, i);
      StepGeneration(c, Run(c, w, before), es[|es| - 1], d);
    }
  }

  /** If the generation of a session's peer was read in `w`, and the session is registered at the
      end of a run from `w`, then nothing in that run withdrew the peer's trust. */
  lemma SessionOutlivesNoWithdrawal(c: Codec, w: World, es: seq<Event>, sid: SessionId, i: nat)
    requires Inv(w) && Counting(w.store) && i < |es|
    requires sid in Run(c, w, es).rt.sessions
    requires var rec := Run(c, w, es).rt.sessions[sid]; rec.generation == w.store.Generation(rec.device)
    ensures !Withdraws(c, Run(c, w, es[..i]), es[i], Run(c, w, es).rt.sessions[sid].device)
  {
    hide Next, Inv, Withdraws, Counting;
    var end := Run(c, w, es);
    var d := end.rt.sessions[sid].device;
    RunKeepsInv(c, w, es);
    SessionIsAuthorized(end, sid);
    GenerationsGrow(c, w, es[..i], d, 0);
    assert es[..i][..0] == [];
    assert es[..i + 1][..i] == es[..i];
    StepGeneration(c, Run(c, w, es[..i]), es[i], d);
    GenerationsGrow(c, w, es, d, i + 1);
    WithdrawalKinds(c, Run(c, w, es[..i]), es[i], d);
  }

  lemma SessionIsAuthorized(w: World, sid: SessionId)
    requires Inv(w) && sid in w.rt.sessions
    ensures var rec := w.rt.sessions[sid]; w.store.IsTrusted(rec.device) && w.store.Generation(rec.device) == rec.generation
  {
  }

  lemma WithdrawalKinds(c: Codec, w: World, e: Event, d: DeviceId)
    ensures Withdraws(c, w, e, d) ==> e.RevokePeer? || e.ForgetPeer?
  {
  }

  lemma {:induction false} RunKeepsInv(c: Codec, w: World, es: seq<Event>)
    requires Inv(w)
    ensures Inv(Run(c, w, es))
  {
    hide Next, Inv;
    if es != [] {
      RunKeepsInv(c, w, es[..|es| - 1]);
      NextKeeps(c, Run(c, w, es[..|es| - 1]), es[|es| - 1]);
    }
  }
}
