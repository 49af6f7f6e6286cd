/** DIAL CONSERVATION. Every caller handed to the supervisor's dialling is answered exactly once,
    or still waits in an uncancelled dial record whose one task is alive. */
module DialConservation {
  import opened Common
  import opened Connectivity
  import opened TrustJournal
  import opened Supervisor
  import opened Registry
  import opened SupervisorRuns

  ghost function Ids(answers: seq<(ReplyId, Answer)>): multiset<ReplyId> {
    if answers == [] then multiset{} else Ids(answers[..|answers| - 1]) + multiset{answers[|answers| - 1].0}
  }

  ghost function Waiting(dials: Dials): multiset<ReplyId> {
    multiset(Waiters(dials, 0, ID_LIMIT))
  }

  /** Callers answered so far and callers still waiting, each as often as it occurs. */
  ghost function Outstanding(r: Runtime): multiset<ReplyId> {
    Ids(r.answers) + Waiting(r.dials)
  }

  // ----- answers -----

  lemma IdsOfOneMore(answers: seq<(ReplyId, Answer)>, one: (ReplyId, Answer))
    ensures Ids(answers + [one]) == Ids(answers) + multiset{one.0}
  {
  }

  lemma ToAllGrows(replies: seq<ReplyId>, last: ReplyId, answer: Answer)
    ensures ToAll(replies + [last], answer) == ToAll(replies, answer) + [(last, answer)]
  {
  }

  lemma {:induction false} IdsOfAll(answers: seq<(ReplyId, Answer)>, replies: seq<ReplyId>, answer: Answer)
    ensures Ids(answers + ToAll(replies, answer)) == Ids(answers) + multiset(replies)
    decreases |replies|
  {
    hide Ids;
    if replies == [] {
      assert answers + ToAll(replies, answer) == answers;
    } else {
      var front, last := replies[..|replies| - 1], replies[|replies| - 1];
      assert replies == front + [last];
      hide ToAll;
      ToAllGrows(front, last, answer);
      assert answers + (ToAll(front, answer) + [(last, answer)]) == (answers + ToAll(front, answer)) + [(last, answer)];
      IdsOfOneMore(answers + ToAll(front, answer), (last, answer));
      IdsOfAll(answers, front, answer);
    }
  }

  // ----- waiters -----

  function RepliesAt(dials: Dials, d: DeviceId): seq<ReplyId> {
    if d in dials then dials[d].replies else []
  }

  lemma {:induction false} WaitersSame(m: Dials, n: Dials, lo: nat, hi: nat)
    requires lo <= hi <= ID_LIMIT
    requires forall d: DeviceId | lo <= d < hi :: RepliesAt(m, d) == RepliesAt(n, d)
    ensures Waiters(m, lo, hi) == Waiters(n, lo, hi)
    decreases hi - lo
  {
    if lo < hi {
      WaitersSame(m, n, lo, hi - 1);
      assert RepliesAt(m, hi - 1) == RepliesAt(n, hi - 1);
    }
  }

  lemma {:induction false} WaitersSplit(m: Dials, lo: nat, mid: nat, hi: nat)
    requires lo <= mid <= hi <= ID_LIMIT
    ensures Waiters(m, lo, hi) == Waiters(m, lo, mid) + Waiters(m, mid, hi)
    decreases hi - mid
  {
    if mid < hi {
      WaitersSplit(m, lo, mid, hi - 1);
    }
  }

  lemma WaitersOfOne(m: Dials, d: DeviceId)
    ensures Waiters(m, d, d as nat + 1) == RepliesAt(m, d)
  {
  }

  lemma WaitersAround(m: Dials, d: DeviceId)
    ensures Waiting(m) == multiset(Waiters(m, 0, d)) + multiset(RepliesAt(m, d)) + multiset(Waiters(m, d as nat + 1, ID_LIMIT))
  {
    hide Waiters, RepliesAt;
    WaitersSplit(m, 0, d, ID_LIMIT);
    WaitersSplit(m, d, d as nat + 1, ID_LIMIT);
    WaitersOfOne(m, d);
  }

  /** Changing one record changes the waiting callers by exactly that record's. */
  lemma WaitingChange(m: Dials, n: Dials, d: DeviceId)
    requires forall e: DeviceId | e != d :: RepliesAt(m, e) == RepliesAt(n, e)
    ensures forall id :: Waiting(n)[id] + multiset(RepliesAt(m, d))[id] == Waiting(m)[id] + multiset(RepliesAt(n, d))[id]
  {
    hide Waiting, Waiters;
    WaitersAround(m, d);
    WaitersAround(n, d);
    WaitersSame(m, n, 0, d);
    WaitersSame(m, n, d as nat + 1, ID_LIMIT);
  }

  // ----- what each piece does to the callers -----

  lemma AnswerAdds(r: Runtime, replies: seq<ReplyId>, answer: Answer)
    ensures Outstanding(AnswerAll(r, replies, answer)) == Outstanding(r) + multiset(replies)
  {
    hide Waiting, Ids, ToAll;
    IdsOfAll(r.answers, replies, answer);
  }

  lemma CancelConserves(r: Runtime, d: DeviceId, answer: Answer)
    ensures Outstanding(CancelDial(r, d, answer)) == Outstanding(r)
  {
    hide Waiting, Ids, ToAll;
    if d in r.dials {
      var s := r.(dials := r.dials[d := r.dials[d].(cancelled := true, replies := [])]);
      WaitingChange(r.dials, s.dials, d);
      assert RepliesAt(s.dials, d) == [] && RepliesAt(r.dials, d) == r.dials[d].replies;
      IdsOfAll(s.answers, r.dials[d].replies, answer);
    }
  }

  lemma AddDialConserves(r: Runtime, d: DeviceId, pairing: bool)
    requires d !in r.dials
    ensures Outstanding(AddDial(r, d, pairing)) == Outstanding(r)
  {
    hide Waiting, Ids;
    WaitingChange(r.dials, AddDial(r, d, pairing).dials, d);
    assert RepliesAt(AddDial(r, d, pairing).dials, d) == RepliesAt(r.dials, d) == [];
  }

  lemma AddWaitersAdds(r: Runtime, d: DeviceId, replies: seq<ReplyId>)
    requires d in r.dials
    ensures Outstanding(AddWaiters(r, d, replies)) == Outstanding(r) + multiset(replies)
  {
    hide Waiting, Ids;
    var s := AddWaiters(r, d, replies);
    WaitingChange(r.dials, s.dials, d);
    assert RepliesAt(s.dials, d) == r.dials[d].replies + replies && RepliesAt(r.dials, d) == r.dials[d].replies;
  }

  lemma TakeDialRemoves(r: Runtime, d: DeviceId, token: nat)
    requires d in r.dials
    ensures Outstanding(TakeDial(r, d, token)) + multiset(r.dials[d].replies) == Outstanding(r)
  {
    hide Waiting, Ids;
    WaitingChange(r.dials, r.dials - {d}, d);
    assert RepliesAt(r.dials - {d}, d) == [] && RepliesAt(r.dials, d) == r.dials[d].replies;
  }

  lemma SeatConserves(r: Runtime, c: Candidate, origin: Origin, env: Env)
    requires c.device in r.sched.peers
    ensures Outstanding(Seat(r, c, origin, env).0) == Outstanding(r)
  {
    hide Existing, Judge, AddSession, Displace, Install, CancelDial, Ids, Waiting;
    var v := Judge(r, c, origin);
    if v.Admit? {
      var base := Displace(r, c.device, v.existing, env);
      AddedShape(r, c, origin, v.existing, env);
      InstallIsAdd(base, c, origin, env);
      CancelConserves(AddSession(base, c, origin, env.now), c.device, ToSession(c.device, base.nextSession));
    }
  }

  lemma RegisterConserves(r: Runtime, store: Store, c: Candidate, origin: Origin, env: Env)
    ensures Outstanding(RegisterSession(r, store, c, origin, env).0) == Outstanding(r)
  {
    hide Seat, Ids, Waiting;
    if Screen(r, store, c).None? {
      SeatConserves(r.(sched := r.sched.Insert(c.device, env.now)), c, origin, env);
    }
  }

  lemma SettleConserves(r: Runtime, store: Store, d: DeviceId, pairing: bool, result: Result<Candidate, Code>, env: Env)
    ensures Outstanding(SettleDial(r, store, d, pairing, result, env).0) == Outstanding(r)
  {
    hide RegisterSession, Ids, Waiting;
    if result.Ok? {
      RegisterConserves(r, store, result.value, Outbound, env);
    }
  }

  lemma TellAdds(r: Runtime, d: DeviceId, rec: DialRecord, answer: Answer, env: Env)
    ensures Outstanding(TellWaiters(r, d, rec, answer, env)) == Outstanding(r) + multiset(rec.replies)
  {
    hide Canonical, Ids, Waiting, AnswerAll;
    AnswerAdds(r, rec.replies, answer);
    if Canonical(r, d).Some? {
      AnswerAdds(r, rec.replies, ToSession(d, Canonical(r, d).value));
    } else if answer.Refused? {
      AnswerAdds(MarkFailed(r, d, answer.code, env), rec.replies, answer);
    }
  }

  /** Only a cancelled record is dropped without telling anyone, and it has no waiters left. */
  lemma DialDoneConserves(r: Runtime, store: Store, d: DeviceId, token: nat, result: Result<Candidate, Code>, env: Env)
    requires d in r.dials && r.dials[d].token == token && DialFits(r.dials[d])
    ensures Outstanding(DialDone(r, store, d, token, result, env)) == Outstanding(r)
  {
    hide SettleDial, TakeDial, TellWaiters, Ids, Waiting;
    var r2, rec := TakeDial(r, d, token), r.dials[d];
    TakeDialRemoves(r, d, token);
    var (s, answer) := SettleDial(r2, store, d, rec.pairing, result, env);
    SettleConserves(r2, store, d, rec.pairing, result, env);
    TellAdds(s, d, rec, answer, env);
  }

  lemma StartDialConserves(r: Runtime, d: DeviceId, pairing: bool, env: Env)
    ensures Outstanding(StartDial(r, d, pairing, env).0) == Outstanding(r)
  {
    hide Ids, Waiting, AddDial, Busy;
    if d !in r.dials {
      AddDialConserves(r, d, pairing);
    }
  }

  lemma StartConserves(r: Runtime, store: Store, d: DeviceId, pairing: bool, manual: bool, env: Env)
    ensures Outstanding(StartOutbound(r, store, d, pairing, manual, env).0) == Outstanding(r)
  {
    hide Ids, Waiting, StartDial, Canonical, Busy;
    if DialRefusal(r, store, d, pairing).None? {
      var r1 := if pairing then r else r.(sched := r.sched.Insert(d, env.now));
      var r2 := if manual && !pairing then SetPeer(r1, d, r1.sched.peers[d].Resume(env.now)) else r1;
      StartDialConserves(r2, d, pairing, env);
    }
  }

  /** Starting a dial takes its caller in: answered at once or left waiting. */
  lemma SpawnAdds(r: Runtime, store: Store, d: DeviceId, pairing: bool, reply: Option<ReplyId>, env: Env)
    ensures Outstanding(SpawnOutbound(r, store, d, pairing, reply, env)) == Outstanding(r) + multiset(AsReplies(reply))
  {
    hide Ids, Waiting, StartOutbound, Canonical, AnswerAll, AddWaiters;
    StartConserves(r, store, d, pairing, reply.Some?, env);
    var (s, result) := StartOutbound(r, store, d, pairing, reply.Some?, env);
    match result {
      case Ok(Some(sid)) => AnswerAdds(s, AsReplies(reply), ToSession(d, sid));
      case Ok(None) =>
        AnswerAdds(s, AsReplies(reply), Refused(Internal));
        if d in s.dials {
          AddWaitersAdds(s, d, AsReplies(reply));
        }
      case Err(code) =>
        AnswerAdds(s, AsReplies(reply), Refused(code));
        AnswerAdds(MarkFailed(s, d, code, env), AsReplies(reply), Refused(code));
    }
  }

  lemma FireConserves(r: Runtime, store: Store, env: Env)
    ensures Outstanding(Fire(r, store, env)) == Outstanding(r)
  {
    hide SpawnOutbound, Ids, Waiting;
    if |r.dials| < r.config.maxDials && r.sched.Pick(env.now).Some? {
      SpawnAdds(r.(sched := r.sched.TakeDue(env.now)), store, r.sched.Pick(env.now).value, false, None, env);
    }
  }

  lemma {:induction false} NoWaiters(dials: Dials, lo: nat, hi: nat)
    requires lo <= hi <= ID_LIMIT && forall d | d in dials :: dials[d].replies == []
    ensures Waiters(dials, lo, hi) == []
    decreases hi - lo
  {
    if lo < hi {
      NoWaiters(dials, lo, hi - 1);
    }
  }

  /** Shutting down answers everyone. */
  lemma StopConserves(r: Runtime)
    ensures Outstanding(Shutdown(r)) == Outstanding(r)
    ensures Waiting(Shutdown(r).dials) == multiset{}
  {
    hide Waiters, Ids, ToAll;
    NoWaiters(Shutdown(r).dials, 0, ID_LIMIT);
    IdsOfAll(r.answers, Waiters(r.dials, 0, ID_LIMIT), Refused(ShuttingDown));
  }

  // ----- steps and runs -----

  function Handed(w: World, e: Event): multiset<ReplyId> {
    if w.rt.running && e.Dial? then multiset{e.reply} else multiset{}
  }

  lemma IncomingConserves(r: Runtime, store: Store, result: Result<Candidate, Code>, env: Env)
    ensures Outstanding(IncomingDone(r, store, result, env)) == Outstanding(r)
  {
    hide RegisterSession, Ids, Waiting;
    if result.Ok? {
      RegisterConserves(r.(tasks := r.tasks.(accept := if r.tasks.accept == 0 then 0 else r.tasks.accept - 1)),
                        store, result.value, Inbound, env);
    }
  }

  lemma PairingConserves(r: Runtime, store: Store, pid: PairingId, outcome: Option<Candidate>, env: Env)
    requires pid in r.tasks.pairings
    ensures Outstanding(PairingDone(r, store, pid, outcome, env)) == Outstanding(r)
  {
    hide RegisterSession, Ids, Waiting;
    if outcome.Some? && pid in r.pending {
      RegisterConserves(r.(tasks := r.tasks.(pairings := r.tasks.pairings - {pid}), pending := r.pending - {pid}),
                        store, outcome.value, r.pending[pid].origin, env);
    }
  }

  lemma NextConserves(c: Codec, w: World, e: Event)
    requires Dialled(w.rt.dials, w.rt.tasks.dials)
    ensures Outstanding(Next(c, w, e).rt) == Outstanding(w.rt) + Handed(w, e)
  {
    hide IncomingDone, PairingDone, SpawnOutbound, Fire, DialDone, CancelDial, Shutdown, Resolving, Commit, Ids, Waiting;
    var r, store := w.rt, w.store;
    match e {
      case Timer(env) => FireConserves(r, store, env);
      case Dial(d, pairing, reply, env) => SpawnAdds(r, store, d, pairing, Some(reply), env);
      case DisconnectSession(sid, now) =>
        if sid in r.sessions {
          CancelConserves(r, r.sessions[sid].device, Refused(ConnectionFailed));
        }
      case RevokePeer(d, io) => CancelConserves(r, d, Refused(PeerNotTrusted));
      case ForgetPeer(d, io) => CancelConserves(r, d, Refused(PeerNotTrusted));
      case Incoming(result, env) => IncomingConserves(r, store, result, env);
      case DialEnded(d, token, result, env) =>
        if (d, token) in r.tasks.dials {
          DialDoneConserves(r, store, d, token, result, env);
        }
      case PairingEnded(pid, outcome, env) =>
        if pid in r.tasks.pairings {
          PairingConserves(r, store, pid, outcome, env);
        }
      case Stop => StopConserves(r);
      case _ =>
    }
  }

  ghost function HandedIn(c: Codec, w: World, es: seq<Event>): multiset<ReplyId> {
    if es == [] then multiset{}
    else HandedIn(c, w, es[..|es| - 1]) + Handed(Run(c, w, es[..|es| - 1]), es[|es| - 1])
  }

  /** Over every run: callers handed in are exactly the callers answered plus those waiting. */
  lemma {:induction false} EveryCallerIsAccountedFor(c: Codec, w: World, es: seq<Event>)
    requires JustStarted(w) && w.rt.answers == []
    ensures var r := Run(c, w, es).rt; Ids(r.answers) + Waiting(r.dials) == HandedIn(c, w, es)
  {
    if es == [] {
      NoWaiters(w.rt.dials, 0, ID_LIMIT);
    } else {
      hide Next, Ids, Waiting, Handed;
      var before := Run(c, w, es[..|es| - 1]);
      EveryCallerIsAccountedFor(c, w, es[..|es| - 1]);
      EveryRunIsSound(c, w, es[..|es| - 1]);
      NextConserves(c, before, es[|es| - 1]);
    }
  }

  /** A waiting caller waits on an uncancelled record whose own task is alive. */
  lemma {:induction false} WaitingOnALiveDial(r: Runtime, id: ReplyId, lo: nat, hi: nat) returns (d: DeviceId)
    requires Dialled(r.dials, r.tasks.dials) && lo <= hi <= ID_LIMIT
    requires id in Waiters(r.dials, lo, hi)
    ensures d in r.dials && id in r.dials[d].replies && !r.dials[d].cancelled
    ensures (d, r.dials[d].token) in r.tasks.dials && |r.dials[d].replies| <= MAX_DIAL_WAITERS
    decreases hi - lo
  {
    if hi - 1 in r.dials && id in r.dials[hi - 1].replies {
      d := hi - 1;
    } else {
      d := WaitingOnALiveDial(r, id, lo, hi - 1);
    }
  }
}

/** TRUE ANSWERS. A caller who is told of a session is told of a registered one with the device it
    dialled; a caller who is refused is refused because no open session with that device is left. */
module DialAnswers {
  import opened Common
  import opened Connectivity
  import opened TrustJournal
  import opened Supervisor
  import opened Registry
  import opened SupervisorRuns

  /** Who dialled which device, and whether to pair with it. */
  type Calls = set<(ReplyId, DeviceId, bool)>

  predicate Names(answer: Answer, sessions: Sessions) {
    answer.ToSession? ==> answer.sid in sessions && sessions[answer.sid].device == answer.device
  }

  predicate Asked(calls: Calls, reply: ReplyId, answer: Answer) {
    answer.ToSession? ==> (reply, answer.device, true) in calls || (reply, answer.device, false) in calls
  }

  ghost predicate NoneOpen(r: Runtime, d: DeviceId) {
    forall sid :: !OpenSession(r, d, sid)
  }

  /** A refusal is in order: the caller wanted to pair, dialled this very device, or there is no open
      session with the device it dialled. */
  ghost predicate Excused(r: Runtime, calls: Calls, reply: ReplyId) {
    exists d :: ExcusedFor(r, calls, reply, d)
  }

  ghost predicate ExcusedFor(r: Runtime, calls: Calls, reply: ReplyId, d: DeviceId) {
    (reply, d, true) in calls || ((reply, d, false) in calls && (d == r.config.self || NoneOpen(r, d)))
  }

  predicate AllAsked(calls: Calls, replies: seq<ReplyId>, d: DeviceId, pairing: bool) {
    forall i | 0 <= i < |replies| :: (replies[i], d, pairing) in calls
  }

  /** Whoever waits on a dial dialled that device. */
  predicate Backed(dials: Dials, calls: Calls) {
    forall d | d in dials :: AllAsked(calls, dials[d].replies, d, dials[d].pairing)
  }

  /** Answers are only ever added; every added one that names a session names a registered one with
      the device its caller dialled, and every added refusal is in order. */
  ghost predicate Truthful(r: Runtime, s: Runtime, calls: Calls) {
    && |r.answers| <= |s.answers| && s.answers[..|r.answers|] == r.answers
    && (forall k | |r.answers| <= k < |s.answers| ::
          && Names(s.answers[k].1, s.sessions) && Asked(calls, s.answers[k].0, s.answers[k].1)
          && (s.answers[k].1.Refused? ==> Excused(s, calls, s.answers[k].0)))
  }

  /** A step answers truthfully, and leaves only callers waiting who dialled. */
  ghost predicate Honest(r: Runtime, s: Runtime, calls: Calls) {
    Truthful(r, s, calls) && Backed(s.dials, calls)
  }

  lemma HonestCompose(r: Runtime, s: Runtime, t: Runtime, calls: Calls)
    requires Truthful(r, s, calls) && Honest(s, t, calls)
    requires t.sessions == s.sessions && t.config == s.config && s.closed <= t.closed
    ensures Honest(r, t, calls)
  {
    forall k | |r.answers| <= k < |s.answers| && s.answers[k].1.Refused? ensures Excused(t, calls, s.answers[k].0) {
      StillExcused(s, t, calls, s.answers[k].0);
    }
    hide Excused;
  }

  lemma StillExcused(s: Runtime, t: Runtime, calls: Calls, reply: ReplyId)
    requires Excused(s, calls, reply) && t.sessions == s.sessions && t.config == s.config && s.closed <= t.closed
    ensures Excused(t, calls, reply)
  {
    var d :| ExcusedFor(s, calls, reply, d);
    assert (reply, d, true) !in calls && d != s.config.self ==> NoneOpen(t, d) by {
      forall sid ensures NoneOpen(s, d) ==> !OpenSession(t, d, sid) {
        assert NoneOpen(s, d) ==> !OpenSession(s, d, sid);
      }
    }
    assert ExcusedFor(t, calls, reply, d);
  }

  lemma SilentIsHonest(r: Runtime, s: Runtime, calls: Calls)
    requires s.answers == r.answers && Backed(s.dials, calls)
    ensures Honest(r, s, calls)
  {
  }

  lemma SameAnswers(r: Runtime, base: Runtime, s: Runtime, calls: Calls)
    requires base.answers == r.answers && Honest(base, s, calls)
    ensures Honest(r, s, calls)
  {
  }

  /** These callers asked for `d`, to pair or not, and may get this answer. */
  ghost predicate Due(r: Runtime, replies: seq<ReplyId>, answer: Answer, d: DeviceId, pairing: bool, calls: Calls) {
    && AllAsked(calls, replies, d, pairing) && Names(answer, r.sessions) && (answer.ToSession? ==> answer.device == d)
    && (answer.Refused? && replies != [] ==> pairing || d == r.config.self || NoneOpen(r, d))
  }

  lemma AnswerIsHonest(r: Runtime, replies: seq<ReplyId>, answer: Answer, d: DeviceId, pairing: bool, calls: Calls)
    requires Due(r, replies, answer, d, pairing, calls) && Backed(r.dials, calls)
    ensures Honest(r, AnswerAll(r, replies, answer), calls)
  {
    var s := AnswerAll(r, replies, answer);
    forall i | 0 <= i < |replies| && answer.Refused? ensures Excused(s, calls, replies[i]) {
      SameNone(r, s, d);
      assert ExcusedFor(s, calls, replies[i], d);
    }
    hide Excused, NoneOpen;
  }

  lemma SameNone(r: Runtime, s: Runtime, d: DeviceId)
    requires s.sessions == r.sessions && s.closed == r.closed
    ensures NoneOpen(r, d) <==> NoneOpen(s, d)
  {
    forall sid ensures OpenSession(r, d, sid) <==> OpenSession(s, d, sid) {
    }
  }

  lemma CancelIsHonest(r: Runtime, d: DeviceId, sid: SessionId, calls: Calls)
    requires With(r.sessions, sid, d) && Backed(r.dials, calls)
    ensures Honest(r, CancelDial(r, d, ToSession(d, sid)), calls) && CancelDial(r, d, ToSession(d, sid)).sessions == r.sessions
  {
  }

  lemma InstallIsHonest(r: Runtime, c: Candidate, origin: Origin, env: Env, calls: Calls)
    requires Backed(r.dials, calls)
    ensures var s := Install(r, c, origin, env);
            Honest(r, s, calls) && r.nextSession in s.sessions && s.sessions[r.nextSession].device == c.device
  {
    hide CancelDial, Honest;
    var s := AddSession(r, c, origin, env.now);
    SilentIsHonest(r, s, calls);
    CancelIsHonest(s, c.device, r.nextSession, calls);
    SameAnswers(r, s, CancelDial(s, c.device, ToSession(c.device, r.nextSession)), calls);
  }

  /** A registered session with a device. */
  predicate With(sessions: Sessions, sid: SessionId, d: DeviceId) {
    sid in sessions && sessions[sid].device == d
  }

  lemma SeatIsHonest(r: Runtime, c: Candidate, origin: Origin, env: Env, calls: Calls)
    requires Backed(r.dials, calls)
    ensures var (s, result) := Seat(r, c, origin, env);
            Honest(r, s, calls) && (result.Ok? ==> With(s.sessions, result.value, c.device))
  {
    ExistingIsRegistered(r, c.device);
    hide Install, Honest, Existing;
    SilentIsHonest(r, Close(r, c.conn), calls);
    var v := Judge(r, c, origin);
    if v.Admit? {
      var base := Displace(r, c.device, v.existing, env);
      assert base.answers == r.answers && base.nextSession == r.nextSession && base.dials == r.dials;
      InstallIsHonest(base, c, origin, env, calls);
      SameAnswers(r, base, Install(base, c, origin, env), calls);
    }
  }

  lemma CanonicalIsRegistered(r: Runtime, d: DeviceId)
    ensures Canonical(r, d).Some? ==> With(r.sessions, Canonical(r, d).value, d)
    ensures Canonical(r, d).None? <==> NoneOpen(r, d)
  {
  }

  lemma RegisterIsHonest(r: Runtime, store: Store, c: Candidate, origin: Origin, env: Env, calls: Calls)
    requires Backed(r.dials, calls)
    ensures var (s, result) := RegisterSession(r, store, c, origin, env);
            Honest(r, s, calls) && (result.Ok? ==> With(s.sessions, result.value, c.device))
  {
    hide Seat, Honest, Canonical;
    SilentIsHonest(r, Close(r, c.conn), calls);
    CanonicalIsRegistered(r, c.device);
    if Screen(r, store, c).None? {
      var base := r.(sched := r.sched.Insert(c.device, env.now));
      SeatIsHonest(base, c, origin, env, calls);
      SameAnswers(r, base, Seat(base, c, origin, env).0, calls);
    }
  }

  lemma PendingIsSilent(r: Runtime, store: Store, c: Candidate, origin: Origin)
    ensures RegisterPending(r, store, c, origin).0.answers == r.answers && RegisterPending(r, store, c, origin).0.dials == r.dials
  {
  }

  /** A dial brings a connection with the device it was for. */
  predicate Delivers(d: DeviceId, result: Result<Candidate, Code>) {
    result.Ok? ==> result.value.device == d
  }

  lemma SettleIsHonest(r: Runtime, store: Store, d: DeviceId, pairing: bool, result: Result<Candidate, Code>, env: Env, calls: Calls)
    requires Backed(r.dials, calls) && Delivers(d, result)
    ensures var (s, answer) := SettleDial(r, store, d, pairing, result, env);
            && Honest(r, s, calls) && Names(answer, s.sessions) && (answer.ToSession? ==> answer.device == d)
  {
    hide RegisterSession, RegisterPending, Honest;
    SilentIsHonest(r, r, calls);
    if result.Ok? {
      RegisterIsHonest(r, store, result.value, Outbound, env, calls);
      PendingIsSilent(r, store, result.value, Outbound);
      SilentIsHonest(r, RegisterPending(r, store, result.value, Outbound).0, calls);
      SilentIsHonest(r, Close(r, result.value.conn), calls);
    }
  }

  lemma TellIsHonest(r: Runtime, d: DeviceId, rec: DialRecord, answer: Answer, env: Env, calls: Calls)
    requires Names(answer, r.sessions) && (answer.ToSession? ==> answer.device == d)
    requires Backed(r.dials, calls) && AllAsked(calls, rec.replies, d, rec.pairing)
    ensures Honest(r, TellWaiters(r, d, rec, answer, env), calls) && SameSessions(r, TellWaiters(r, d, rec, answer, env))
  {
    TellKeepsSessions(r, d, rec, answer, env);
    CanonicalIsRegistered(r, d);
    hide Canonical, Honest, ToAll, NoneOpen, MarkFailed;
    if rec.pairing {
      AnswerIsHonest(r, rec.replies, answer, d, true, calls);
    } else if Canonical(r, d).Some? {
      AnswerIsHonest(r, rec.replies, ToSession(d, Canonical(r, d).value), d, false, calls);
    } else if answer.Refused? {
      var s := MarkFailed(r, d, answer.code, env);
      MarksKeepSessions(r, d, answer.code, env);
      SameNone(r, s, d);
      MarkFailedKeepsDials(r, d, answer.code, env);
      AnswerIsHonest(s, rec.replies, answer, d, false, calls);
      SameAnswers(r, s, AnswerAll(s, rec.replies, answer), calls);
    } else {
      AnswerIsHonest(r, rec.replies, answer, d, false, calls);
    }
  }

  lemma MarkFailedKeepsDials(r: Runtime, d: DeviceId, code: Code, env: Env)
    ensures MarkFailed(r, d, code, env).dials == r.dials && MarkFailed(r, d, code, env).answers == r.answers
  {
  }

  lemma DialDoneIsHonest(r: Runtime, store: Store, d: DeviceId, token: nat, result: Result<Candidate, Code>, env: Env, calls: Calls)
    requires Backed(r.dials, calls) && Delivers(d, result)
    ensures Honest(r, DialDone(r, store, d, token, result, env), calls)
  {
    hide SettleDial, TellWaiters, Truthful;
    SilentIsHonest(r, DropResult(r.(tasks := r.tasks.(dials := r.tasks.dials - {(d, token)})), result), calls);
    if d in r.dials && r.dials[d].token == token {
      var r2, rec := TakeDial(r, d, token), r.dials[d];
      SilentIsHonest(r, DropResult(r2, result), calls);
      SettleIsHonest(r2, store, d, rec.pairing, result, env, calls);
      var (r3, answer) := SettleDial(r2, store, d, rec.pairing, result, env);
      SameAnswers(r, r2, r3, calls);
      TellIsHonest(r3, d, rec, answer, env, calls);
      HonestCompose(r, r3, TellWaiters(r3, d, rec, answer, env), calls);
    }
  }

  lemma StartDialIsSilent(r: Runtime, d: DeviceId, pairing: bool, env: Env, calls: Calls)
    requires Backed(r.dials, calls)
    ensures var (s, result) := StartDial(r, d, pairing, env);
            && s.answers == r.answers && Backed(s.dials, calls)
            && (result.Ok? ==> result.value.None? && (d in s.dials ==> s.dials[d].pairing == pairing))
  {
    hide MarkDialling;
    assert forall s: Runtime :: MarkDialling(s, d).answers == s.answers && MarkDialling(s, d).dials == s.dials by {
      forall s: Runtime ensures MarkDialling(s, d).answers == s.answers && MarkDialling(s, d).dials == s.dials {
        MarkIsSilent(s, d);
      }
    }
  }

  lemma MarkIsSilent(r: Runtime, d: DeviceId)
    ensures MarkDialling(r, d).answers == r.answers && MarkDialling(r, d).dials == r.dials
  {
  }

  /** A dial that is not answered at once with a session finds no open one. */
  lemma StartNames(r: Runtime, store: Store, d: DeviceId, pairing: bool, manual: bool, env: Env, calls: Calls)
    requires Backed(r.dials, calls)
    ensures var (s, result) := StartOutbound(r, store, d, pairing, manual, env);
            && s.answers == r.answers && Backed(s.dials, calls)
            && (result.Ok? && result.value.Some? ==> With(s.sessions, result.value.value, d) && !pairing)
            && (result == Ok(None) && d in s.dials ==> s.dials[d].pairing == pairing)
  {
    hide Canonical, StartDial, Backed;
    if DialRefusal(r, store, d, pairing).None? {
      var r1 := if pairing then r else r.(sched := r.sched.Insert(d, env.now));
      var r2 := if manual && !pairing then SetPeer(r1, d, r1.sched.peers[d].Resume(env.now)) else r1;
      StartDialIsSilent(r2, d, pairing, env, calls);
      CanonicalIsRegistered(r2, d);
    }
  }

  lemma SessionsAreFit(r: Runtime, store: Store, d: DeviceId)
    requires Agrees(r.sessions, r.sched.peers) && AllAuthorized(r.sessions, store) && !NoneOpen(r, d)
    ensures store.IsTrusted(d) && r.sched.HasRoom(d)
  {
    var sid :| OpenSession(r, d, sid);
  }

  lemma RefusedFindsNone(r: Runtime, store: Store, d: DeviceId, env: Env)
    requires Agrees(r.sessions, r.sched.peers) && AllAuthorized(r.sessions, store) && r.running && d != r.config.self
    ensures var (s, result) := StartOutbound(r, store, d, false, true, env);
            result.Err? || result.value.None? ==> NoneOpen(s, d)
  {
    StartKeepsSessions(r, store, d, false, true, env);
    SameNone(r, StartOutbound(r, store, d, false, true, env).0, d);
    if !NoneOpen(r, d) {
      SessionsAreFit(r, store, d);
      CanonicalIsRegistered(r, d);
      var r1 := r.(sched := r.sched.Insert(d, env.now));
      CanonicalIsRegistered(r1, d);
      SameNone(r, r1, d);
      var r2 := SetPeer(r1, d, r1.sched.peers[d].Resume(env.now));
      CanonicalIsRegistered(r2, d);
      SameNone(r, r2, d);
      hide Canonical, NoneOpen, StartDial, Agrees, AllAuthorized;
    }
  }

  /** A caller, if there is one, must be able to count on the registries. */
  ghost predicate Fit(r: Runtime, store: Store, reply: Option<ReplyId>) {
    reply.Some? ==> r.running && Agrees(r.sessions, r.sched.peers) && AllAuthorized(r.sessions, store)
  }

  lemma SpawnIsHonest(r: Runtime, store: Store, d: DeviceId, pairing: bool, reply: Option<ReplyId>, env: Env, calls: Calls)
    requires Backed(r.dials, calls) && AllAsked(calls, AsReplies(reply), d, pairing) && Fit(r, store, reply)
    ensures Honest(r, SpawnOutbound(r, store, d, pairing, reply, env), calls)
  {
    StartNames(r, store, d, pairing, reply.Some?, env, calls);
    StartKeepsSessions(r, store, d, pairing, reply.Some?, env);
    if reply.Some? && !pairing && d != r.config.self {
      RefusedFindsNone(r, store, d, env);
    }
    hide StartOutbound, Canonical, Truthful, ToAll, NoneOpen, MarkFailed;
    var (s, result) := StartOutbound(r, store, d, pairing, reply.Some?, env);
    match result {
      case Ok(Some(sid)) =>
        AnswerIsHonest(s, AsReplies(reply), ToSession(d, sid), d, pairing, calls);
        SameAnswers(r, s, AnswerAll(s, AsReplies(reply), ToSession(d, sid)), calls);
      case Ok(None) =>
        if d in s.dials {
          SilentIsHonest(r, AddWaiters(s, d, AsReplies(reply)), calls);
        } else {
          AnswerIsHonest(s, AsReplies(reply), Refused(Internal), d, pairing, calls);
          SameAnswers(r, s, AnswerAll(s, AsReplies(reply), Refused(Internal)), calls);
        }
      case Err(code) =>
        var t := if !pairing && Canonical(s, d).None? && d !in s.dials then MarkFailed(s, d, code, env) else s;
        MarkFailedKeepsDials(s, d, code, env);
        MarksKeepSessions(s, d, code, env);
        SameNone(s, t, d);
        AnswerIsHonest(t, AsReplies(reply), Refused(code), d, pairing, calls);
        SameAnswers(r, t, AnswerAll(t, AsReplies(reply), Refused(code)), calls);
    }
  }

  lemma FireIsHonest(r: Runtime, store: Store, env: Env, calls: Calls)
    requires Backed(r.dials, calls)
    ensures Honest(r, Fire(r, store, env), calls)
  {
    hide SpawnOutbound, Truthful;
    SilentIsHonest(r, r, calls);
    if |r.dials| < r.config.maxDials && r.sched.Pick(env.now).Some? {
      var base := r.(sched := r.sched.TakeDue(env.now));
      SpawnIsHonest(base, store, r.sched.Pick(env.now).value, false, None, env, calls);
      SameAnswers(r, base, SpawnOutbound(base, store, r.sched.Pick(env.now).value, false, None, env), calls);
    }
  }

  lemma IncomingIsHonest(r: Runtime, store: Store, result: Result<Candidate, Code>, env: Env, calls: Calls)
    requires Backed(r.dials, calls)
    ensures Honest(r, IncomingDone(r, store, result, env), calls)
  {
    hide RegisterSession, RegisterPending, Truthful, Backed;
    var r1 := r.(tasks := r.tasks.(accept := if r.tasks.accept == 0 then 0 else r.tasks.accept - 1));
    var r2 := r1;
    SilentIsHonest(r, r1, calls);
    if result.Ok? {
      RegisterIsHonest(r1, store, result.value, Inbound, env, calls);
      PendingIsSilent(r1, store, result.value, Inbound);
      SilentIsHonest(r, RegisterPending(r1, store, result.value, Inbound).0, calls);
      SameAnswers(r, r1, RegisterSession(r1, store, result.value, Inbound, env).0, calls);
      r2 := if result.value.Authorized? then RegisterSession(r1, store, result.value, Inbound, env).0
            else RegisterPending(r1, store, result.value, Inbound).0;
    }
    var s := r2.(tasks := r2.tasks.(accept := r2.tasks.accept + 1));
    SilentIsHonest(r2, s, calls);
    HonestCompose(r, r2, s, calls);
  }

  lemma PairingIsHonest(r: Runtime, store: Store, pid: PairingId, outcome: Option<Candidate>, env: Env, calls: Calls)
    requires pid in r.tasks.pairings && Backed(r.dials, calls)
    ensures Honest(r, PairingDone(r, store, pid, outcome, env), calls)
  {
    hide RegisterSession, Honest;
    var r1 := r.(tasks := r.tasks.(pairings := r.tasks.pairings - {pid}), pending := r.pending - {pid});
    SilentIsHonest(r, Close(r1, r.tasks.pairings[pid].conn), calls);
    if outcome.Some? {
      SilentIsHonest(r, Close(r1, outcome.value.conn), calls);
      if pid in r.pending {
        RegisterIsHonest(r1, store, outcome.value, r.pending[pid].origin, env, calls);
        SameAnswers(r, r1, RegisterSession(r1, store, outcome.value, r.pending[pid].origin, env).0, calls);
      }
    }
  }

  /** Cancelling a dial to a device that has no open session left. */
  lemma CancelRefuses(r: Runtime, d: DeviceId, answer: Answer, s: Runtime, calls: Calls)
    requires answer.Refused? && Backed(r.dials, calls) && NoneOpen(s, d)
    requires s.answers == CancelDial(r, d, answer).answers && s.dials == CancelDial(r, d, answer).dials
    ensures Honest(r, s, calls)
  {
    if d in r.dials {
      forall i | 0 <= i < |r.dials[d].replies| ensures Excused(s, calls, r.dials[d].replies[i]) {
        assert ExcusedFor(s, calls, r.dials[d].replies[i], d);
      }
    }
    hide Excused, NoneOpen;
  }

  lemma NoneAfterPurge(r: Runtime, d: DeviceId)
    ensures NoneOpen(Invalidate(r, d), d)
  {
  }

  lemma NoneAfterDisconnect(r: Runtime, sid: SessionId, now: Instant)
    requires sid in r.sessions && Agrees(r.sessions, r.sched.peers)
    ensures NoneOpen(Disconnect(r, sid, now), r.sessions[sid].device)
  {
  }

  /** Withdrawing trust and disconnecting answer only with refusals. */
  lemma RemovalIsHonest(r: Runtime, d: DeviceId, sid: SessionId, now: Instant, calls: Calls)
    requires Backed(r.dials, calls) && Agrees(r.sessions, r.sched.peers)
    ensures Honest(r, Invalidate(r, d), calls) && Honest(r, Disconnect(r, sid, now), calls)
  {
    hide CancelDial, Honest, NoneOpen, Agrees;
    NoneAfterPurge(r, d);
    CancelRefuses(r, d, Refused(PeerNotTrusted), Invalidate(r, d), calls);
    SilentIsHonest(r, r, calls);
    if sid in r.sessions {
      NoneAfterDisconnect(r, sid, now);
      CancelRefuses(r, r.sessions[sid].device, Refused(ConnectionFailed), Disconnect(r, sid, now), calls);
    }
  }

  lemma {:induction false} WaiterOf(dials: Dials, lo: nat, hi: nat, i: nat) returns (d: DeviceId)
    requires lo <= hi <= ID_LIMIT && i < |Waiters(dials, lo, hi)|
    ensures d in dials && Waiters(dials, lo, hi)[i] in dials[d].replies
    decreases hi - lo
  {
    if i < |Waiters(dials, lo, hi - 1)| {
      d := WaiterOf(dials, lo, hi - 1, i);
    } else {
      d := hi - 1;
    }
  }

  lemma StopIsHonest(r: Runtime, calls: Calls)
    requires Backed(r.dials, calls)
    ensures Honest(r, Shutdown(r), calls)
  {
    var s, all := Shutdown(r), Waiters(r.dials, 0, ID_LIMIT);
    forall i | 0 <= i < |all| ensures Excused(s, calls, all[i]) {
      var d := WaiterOf(r.dials, 0, ID_LIMIT, i);
      assert ExcusedFor(s, calls, all[i], d);
    }
    hide Waiters, Excused;
  }

  lemma NextIsHonest(c: Codec, w: World, e: Event, calls: Calls)
    requires Backed(w.rt.dials, calls) && Call(e) <= calls && (e.DialEnded? ==> Delivers(e.d, e.result)) && Inv(w)
    ensures Honest(w.rt, Next(c, w, e).rt, calls)
  {
    hide IncomingDone, PairingDone, SpawnOutbound, Fire, DialDone, Invalidate, Disconnect, Shutdown, Resolving, Commit, Honest;
    hide Agrees, Held, Numbered, Bounded, Dialled, Quiet, AllAuthorized;
    var r, store := w.rt, w.store;
    SilentIsHonest(r, r, calls);
    match e {
      case Timer(env) => FireIsHonest(r, store, env, calls);
      case Dial(d, pairing, reply, env) =>
        if r.running {
          SpawnIsHonest(r, store, d, pairing, Some(reply), env, calls);
        }
      case DisconnectSession(sid, now) => RemovalIsHonest(r, 0, sid, now, calls);
      case RevokePeer(d, io) => RemovalIsHonest(r, d, 0, 0, calls);
      case ForgetPeer(d, io) => RemovalIsHonest(r, d, 0, 0, calls);
      case Incoming(result, env) => IncomingIsHonest(r, store, result, env, calls);
      case DialEnded(d, token, result, env) => DialDoneIsHonest(r, store, d, token, result, env, calls);
      case PairingEnded(pid, outcome, env) =>
        if pid in r.tasks.pairings {
          PairingIsHonest(r, store, pid, outcome, env, calls);
        }
      case Stop => StopIsHonest(r, calls);
      case _ => SilentIsHonest(r, Next(c, w, e).rt, calls);
    }
  }

  function Call(e: Event): Calls {
    if e.Dial? then {(e.reply, e.d, e.pairing)} else {}
  }

  /** Every caller of a run, with the device it dialled. */
  ghost function Callers(es: seq<Event>): Calls {
    if es == [] then {} else Callers(es[..|es| - 1]) + Call(es[|es| - 1])
  }

  /** What the transport promises: a dial brings a connection with the device it was for. */
  ghost predicate Delivering(es: seq<Event>) {
    forall i | 0 <= i < |es| && es[i].DialEnded? :: Delivers(es[i].d, es[i].result)
  }

  lemma {:induction false} WaitersDialled(c: Codec, w: World, es: seq<Event>)
    requires JustStarted(w) && Delivering(es)
    ensures Backed(Run(c, w, es).rt.dials, Callers(es))
  {
    if es != [] {
      hide Next, Backed, Truthful, Inv;
      var before, e := es[..|es| - 1], es[|es| - 1];
      WaitersDialled(c, w, before);
      EveryRunIsSound(c, w, before);
      MoreCalls(Run(c, w, before).rt.dials, Callers(before), Callers(es));
      NextIsHonest(c, Run(c, w, before), e, Callers(es));
    }
  }

  lemma MoreCalls(dials: Dials, calls: Calls, more: Calls)
    requires Backed(dials, calls) && calls <= more
    ensures Backed(dials, more)
  {
  }

  /** At every step of every run, whoever is told of a session is told of one that is registered
      then, with the device that caller dialled, and whoever is refused wanted to pair, dialled this
      device itself, or dialled one with which no open session is left. */
  lemma EveryAnswerIsTrue(c: Codec, w: World, es: seq<Event>, e: Event)
    requires JustStarted(w) && Delivering(es + [e])
    ensures var r := Run(c, w, es); Truthful(r.rt, Next(c, r, e).rt, Callers(es + [e]))
  {
    hide Next, Backed, Truthful, Inv;
    EveryRunIsSound(c, w, es);
    assert Delivering(es) by {
      forall i | 0 <= i < |es| && es[i].DialEnded? ensures Delivers(es[i].d, es[i].result) {
        assert (es + [e])[i] == es[i];
      }
    }
    assert (es + [e])[..|es|] == es && (es + [e])[|es|] == e;
    WaitersDialled(c, w, es);
    MoreCalls(Run(c, w, es).rt.dials, Callers(es), Callers(es + [e]));
    NextIsHonest(c, Run(c, w, es), e, Callers(es + [e]));
  }

  /** Whether a trusted, live newcomer that dialled the higher identity is registered there. */
  ghost predicate Welcome(r: Runtime, store: Store, c: Candidate) {
    var e := Existing(r, c.device);
    && store.IsTrusted(c.device) && store.Generation(c.device) == c.generation && c.conn !in r.closed
    && r.sched.HasRoom(c.device) && r.tasks.Owned() < MAX_OWNED_TASKS && r.nextSession < U64_MAX
    && (e.None? ==> |r.sessions| < r.config.maxSessions)
    && (e.Some? ==> e.value in r.sessions && (r.sessions[e.value].conn in r.closed || r.sessions[e.value].origin == Outbound))
  }

  lemma OneExisting(r: Runtime, s: Runtime, d: DeviceId)
    requires Agrees(r.sessions, r.sched.peers) && s.sessions == r.sessions
    ensures Existing(s, d) == Existing(r, d)
  {
    ExistingIsRegistered(r, d);
    ExistingIsRegistered(s, d);
    if Existing(r, d).Some? {
      assert SessionWith(s, d, Existing(r, d).value);
    }
    if Existing(s, d).Some? {
      assert SessionWith(r, d, Existing(s, d).value);
    }
  }

  lemma WelcomeIsSeated(r: Runtime, store: Store, c: Candidate, env: Env)
    requires Agrees(r.sessions, r.sched.peers) && r.config.self > c.device && r.tasks.accept > 0
    ensures var r1 := r.(tasks := r.tasks.(accept := r.tasks.accept - 1));
            var base := r1.(sched := r.sched.Insert(c.device, env.now));
            Welcome(r, store, c) <==> Screen(r1, store, c).None? && Judge(base, c, Inbound).Admit?
  {
    hide Agrees, Existing, Canonical;
    var r1 := r.(tasks := r.tasks.(accept := r.tasks.accept - 1));
    OneExisting(r, r1.(sched := r.sched.Insert(c.device, env.now)), c.device);
    ExistingIsRegistered(r, c.device);
  }

  lemma InstallSettles(r: Runtime, c: Candidate, existing: Option<SessionId>, env: Env)
    requires r.config.self > c.device && c.device in r.dials && (existing.Some? ==> existing.value in r.sessions)
    ensures Settled(r, Install(Displace(r, c.device, existing, env), c, Inbound, env), c)
  {
  }

  /** The dial is cancelled, nobody waits on it, and each of its callers is told of the session. */
  ghost predicate Settled(r: Runtime, s: Runtime, c: Candidate)
    requires c.device in r.dials
  {
    var rec := r.dials[c.device];
    && s.dials == r.dials[c.device := rec.(cancelled := true, replies := [])]
    && s.answers == r.answers + ToAll(rec.replies, ToSession(c.device, r.nextSession))
    && r.nextSession in s.sessions
    && s.sessions[r.nextSession] == SessionRecord(c.device, c.conn, Inbound, c.generation)
  }

  /** An inbound connection kept at the higher identity settles every caller waiting on the dial it
      makes needless; one that is not kept leaves the dial and its callers alone. */
  lemma KeptInboundSettlesCallers(c: Codec, w: World, newcomer: Candidate, env: Env)
    requires Inv(w) && w.rt.running && w.rt.tasks.accept > 0
    requires newcomer.Authorized? && w.rt.config.self > newcomer.device && newcomer.device in w.rt.dials
    ensures var r, s := w.rt, Next(c, w, Incoming(Ok(newcomer), env)).rt;
            if Welcome(r, w.store, newcomer) then Settled(r, s, newcomer)
            else s.dials == r.dials && s.answers == r.answers && s.sessions == r.sessions && r.nextSession !in s.sessions
  {
    hide RegisterSession, Screen, Judge, Welcome, Agrees;
    var r := w.rt;
    WelcomeIsSeated(r, w.store, newcomer, env);
    RegisterSettles(r.(tasks := r.tasks.(accept := r.tasks.accept - 1)), w.store, newcomer, env);
  }

  lemma RegisterSettles(r: Runtime, store: Store, c: Candidate, env: Env)
    requires r.config.self > c.device && c.device in r.dials
    ensures var s := RegisterSession(r, store, c, Inbound, env).0;
            if Screen(r, store, c).None? && Judge(r.(sched := r.sched.Insert(c.device, env.now)), c, Inbound).Admit?
            then Settled(r, s, c)
            else s.dials == r.dials && s.answers == r.answers && s.sessions == r.sessions
  {
    hide Existing, Canonical, Install, Displace, Screen, Judge;
    var base := r.(sched := r.sched.Insert(c.device, env.now));
    var v := Judge(base, c, Inbound);
    if v.Admit? {
      InstallSettles(base, c, v.existing, env);
    }
  }
}
