/** The reconnect policy of rift-daemon: per-peer connectivity state and one bounded scheduler
    that decides when the supervisor may dial which peer. */
module Connectivity {
  import opened Common

  /** Nanoseconds since an arbitrary origin. */
  type Instant = nat

  const MILLI: nat := 1_000_000
  const MAX_MANAGED_PEERS: nat := 4096
  const START_SPACING: nat := 100 * MILLI
  const STABLE_RESET: nat := 30_000 * MILLI

  type SessionId = nat

  datatype LinkState = Disconnected | Connecting | Connected | Backoff | Suspended | Unresolved | Blocked

  /** `NoRoute` is the failure category the source calls Unresolved. */
  datatype Failure = NoRoute | Network | PurposeRejected | Protocol | NotTrusted | Capacity | Cancelled

  // ----- backoff -----

  function CapMs(attempt: nat): nat {
    if attempt <= 1 then 1000 else if attempt == 2 then 2000 else if attempt == 3 then 4000
    else if attempt == 4 then 8000 else if attempt == 5 then 16_000 else if attempt == 6 then 32_000
    else 60_000
  }

  /** Half the exponential cap plus a jitter drawn from a 32-bit sample. */
  function RetryDelayMs(attempt: nat, sample: nat): nat {
    var half := CapMs(attempt) / 2;
    half + sample * half / U32_MAX
  }

  /** Equal jitter: between half the cap and the cap, reaching both, and never over a minute. */
  lemma RetryDelayBounds(attempt: nat, sample: nat)
    requires sample <= U32_MAX
    ensures CapMs(attempt) <= 2 * RetryDelayMs(attempt, sample) <= 2 * CapMs(attempt)
    ensures 500 <= RetryDelayMs(attempt, sample) <= 60_000
    ensures RetryDelayMs(attempt, U32_MAX) == CapMs(attempt)
  {
    var half := CapMs(attempt) / 2;
    assert sample * half <= U32_MAX * half;
    FloorIsMonotone(sample * half, U32_MAX * half);
    WholeShare(half);
  }

  lemma WholeShare(half: nat)
    ensures U32_MAX * half / U32_MAX == half
  {
  }

  /** The cap starts at a second and doubles with every attempt, up to a minute. */
  lemma CapDoubles(attempt: nat)
    ensures CapMs(0) == CapMs(1) == 1000
    ensures attempt >= 1 ==> CapMs(attempt + 1) == Min(2 * CapMs(attempt), 60_000)
  {
  }

  /** The jitter is the sample's share of the other half, rounded down: none of it for no sample, and
      never less for a larger one. */
  lemma JitterIsShare(attempt: nat, sample: nat, larger: nat)
    requires sample <= larger
    ensures var half := CapMs(attempt) / 2;
            var share := RetryDelayMs(attempt, sample) - half;
            && RetryDelayMs(attempt, 0) == half
            && share * U32_MAX <= sample * half < (share + 1) * U32_MAX
            && RetryDelayMs(attempt, sample) <= RetryDelayMs(attempt, larger)
  {
    var half := CapMs(attempt) / 2;
    assert sample * half <= larger * half;
    FloorIsMonotone(sample * half, larger * half);
  }

  lemma FloorIsMonotone(a: nat, b: nat)
    requires a <= b
    ensures a / U32_MAX <= b / U32_MAX
  {
  }

  // ----- one managed peer -----

  datatype Peer = Peer(
    state: LinkState, sessionId: Option<SessionId>, attempt: nat, due: Option<Instant>,
    lastFailure: Option<Failure>, suspended: bool, connectedSince: Option<Instant>)
  {
    function Connect(sid: SessionId, now: Instant): Peer {
      this.(sessionId := Some(sid), state := Connected, due := None, lastFailure := None,
            connectedSince := if connectedSince.Some? then connectedSince else Some(now))
    }

    function Lose(now: Instant, sample: nat): Peer {
      var stable := connectedSince.Some? && now >= connectedSince.value + STABLE_RESET;
      var p := this.(sessionId := None, connectedSince := None, attempt := if stable then 0 else attempt);
      if suspended then p.(state := Suspended, due := None) else p.Fail(Network, now, sample)
    }

    function Fail(failure: Failure, now: Instant, sample: nat): Peer {
      var p := this.(lastFailure := Some(failure), due := None);
      match failure
      case NoRoute => p.(state := Unresolved)
      case Network | Capacity =>
        var n := Min(attempt + 1, U32_MAX);
        p.(attempt := n, due := Some(now + RetryDelayMs(n, sample) * MILLI), state := Backoff)
      case _ => p.(state := Blocked)
    }

    function Resume(now: Instant): Peer {
      if sessionId.None? then this.(suspended := false, state := Disconnected, due := Some(now))
      else this.(suspended := false)
    }

    function Suspend(): Peer {
      this.(suspended := true, due := None, state := if sessionId.None? then Suspended else state)
    }

    function Dialling(): Peer {
      this.(state := Connecting, due := None)
    }
  }

  function NewPeer(now: Instant): Peer {
    Peer(Disconnected, None, 0, Some(now), None, false, None)
  }

  /** Which failures are retried, after the delay of one more attempt; which wait for a hint; and which
      block the peer until somebody asks. */
  lemma FailurePolicy(p: Peer, failure: Failure, now: Instant, sample: nat)
    ensures var q := p.Fail(failure, now, sample);
            && q.lastFailure == Some(failure) && q.sessionId == p.sessionId && q.suspended == p.suspended
            && (failure in {Network, Capacity} ==>
                  && q.state == Backoff && q.attempt == Min(p.attempt + 1, U32_MAX)
                  && q.due == Some(now + RetryDelayMs(q.attempt, sample) * 1_000_000))
            && (failure == NoRoute ==> q.state == Unresolved && q.due.None? && q.attempt == p.attempt)
            && (failure in {PurposeRejected, Protocol, NotTrusted, Cancelled} ==>
                  q.state == Blocked && q.due.None? && q.attempt == p.attempt)
  {
  }

  /** What becomes of a peer whose session is gone: it rests if it was suspended, and is dialled again
      otherwise, as after a first failure if the session had lasted thirty seconds. */
  lemma LossPolicy(p: Peer, now: Instant, sample: nat)
    ensures var q := p.Lose(now, sample);
            && q.sessionId.None? && q.connectedSince.None? && q.suspended == p.suspended
            && (p.suspended ==> q.state == Suspended && q.due.None?)
            && (!p.suspended ==>
                  && q.state == Backoff && q.due == Some(now + RetryDelayMs(q.attempt, sample) * 1_000_000)
                  && q.attempt == if p.connectedSince.Some? && now >= p.connectedSince.value + 30_000_000_000 then 1
                                  else Min(p.attempt + 1, U32_MAX))
  {
  }

  /** Asking for a peer wakes it: due at once, unless it has a session. Disconnecting it puts it to
      rest. A session makes it connected and not due, since its first connection. */
  lemma CommandPolicy(p: Peer, sid: SessionId, now: Instant)
    ensures !p.Resume(now).suspended && p.Resume(now).sessionId == p.sessionId && p.Resume(now).attempt == p.attempt
    ensures p.sessionId.None? ==> p.Resume(now).state == Disconnected && p.Resume(now).due == Some(now)
    ensures p.sessionId.Some? ==> p.Resume(now).state == p.state && p.Resume(now).due == p.due
    ensures p.Suspend().suspended && p.Suspend().due.None? && p.Suspend().sessionId == p.sessionId
    ensures p.Suspend().state == if p.sessionId.None? then Suspended else p.state
    ensures var q := p.Connect(sid, now);
            && q.state == Connected && q.sessionId == Some(sid) && q.due.None? && q.lastFailure.None? && q.attempt == p.attempt
            && q.suspended == p.suspended && q.connectedSince == if p.connectedSince.Some? then p.connectedSince else Some(now)
    ensures p.Dialling().state == Connecting && p.Dialling().due.None? && p.Dialling().attempt == p.attempt
    ensures NewPeer(now).due == Some(now) && NewPeer(now).attempt == 0 && !NewPeer(now).suspended && NewPeer(now).state == Disconnected
  {
  }

  // ----- flapping -----

  /** A connection that came up and was lost. */
  datatype Flap = Flap(sid: SessionId, up: Instant, down: Instant, sample: nat)

  ghost function Flapped(p: Peer, fs: seq<Flap>): Peer {
    if fs == [] then p
    else var f := fs[|fs| - 1]; Flapped(p, fs[..|fs| - 1]).Connect(f.sid, f.up).Lose(f.down, f.sample)
  }

  /** Connections lost within thirty seconds never reset the backoff: each loss counts, so the
      delay after them is that of so many attempts, however often the peer connected in between. */
  lemma {:induction false} FlapsKeepBackingOff(p: Peer, fs: seq<Flap>)
    requires !p.suspended && p.connectedSince.None? && p.attempt + |fs| <= U32_MAX
    requires forall i | 0 <= i < |fs| :: fs[i].down < fs[i].up + STABLE_RESET
    ensures var q := Flapped(p, fs);
            && q.attempt == p.attempt + |fs| && !q.suspended && q.connectedSince.None?
            && (fs != [] ==> var f := fs[|fs| - 1];
                             q.state == Backoff && q.due == Some(f.down + RetryDelayMs(q.attempt, f.sample) * MILLI))
    decreases |fs|
  {
    if fs != [] {
      hide RetryDelayMs;
      FlapsKeepBackingOff(p, fs[..|fs| - 1]);
    }
  }

  /** One that lasted thirty seconds does reset it: the next delay is at most a second. */
  lemma StableConnectionResets(p: Peer, f: Flap)
    requires !p.suspended && p.connectedSince.None? && f.sample <= U32_MAX && f.down >= f.up + STABLE_RESET
    ensures var q := p.Connect(f.sid, f.up).Lose(f.down, f.sample);
            q.attempt == 1 && q.due.Some? && f.down + 500 * MILLI <= q.due.value <= f.down + 1000 * MILLI
  {
    RetryDelayBounds(1, f.sample);
  }

  // ----- the scheduler -----

  datatype Sched = Sched(peers: map<DeviceId, Peer>, nextStart: Instant)
  {
    predicate HasRoom(d: DeviceId) {
      d in peers || |peers| != MAX_MANAGED_PEERS
    }

    function Insert(d: DeviceId, now: Instant): Sched {
      if d !in peers && HasRoom(d) then this.(peers := peers[d := NewPeer(now)]) else this
    }

    function Set(d: DeviceId, p: Peer): Sched {
      this.(peers := peers[d := p])
    }

    predicate DueBy(d: DeviceId, now: Instant) {
      d in peers && peers[d].due.Some? && peers[d].due.value <= now
    }

    /** `d` is due no later than `e`, ties going to the smaller identity. */
    predicate Before(d: DeviceId, e: DeviceId) {
      d in peers && peers[d].due.Some? && e in peers && peers[e].due.Some? &&
      (peers[d].due.value < peers[e].due.value || (peers[d].due.value == peers[e].due.value && d <= e))
    }

    /** The peer `take_due` must choose. */
    ghost predicate Picks(now: Instant, d: DeviceId) {
      now >= nextStart && DueBy(d, now) && forall e | DueBy(e, now) :: Before(d, e)
    }

    ghost function Pick(now: Instant): Option<DeviceId> {
      if exists d :: Picks(now, d) then var d :| Picks(now, d); Some(d) else None
    }

    ghost function TakeDue(now: Instant): Sched {
      match Pick(now)
      case None => this
      case Some(d) => Sched(peers[d := peers[d].Dialling()], now + START_SPACING)
    }

    /** `t` is the earliest due time of any peer. */
    ghost predicate Earliest(t: Instant) {
      && (exists d :: d in peers && peers[d].due == Some(t))
      && (forall d | d in peers && peers[d].due.Some? :: t <= peers[d].due.value)
    }

    /** When the timer must fire next. */
    ghost predicate IsDeadline(deadline: Option<Instant>) {
      match deadline
      case None => forall d | d in peers :: peers[d].due.None?
      case Some(t) => exists e: Instant :: Earliest(e) && t == Max(e, nextStart)
    }
  }

  lemma PickIsUnique(s: Sched, now: Instant, d: DeviceId)
    requires s.Picks(now, d)
    ensures s.Pick(now) == Some(d)
  {
  }

  /** The peer taken is due, and of all that are due it fell due first; of those that fell due with it,
      it has the smallest identity. Nobody is taken before the next permitted start. */
  lemma PickIsEarliest(s: Sched, now: Instant, d: DeviceId)
    requires s.Pick(now) == Some(d)
    ensures s.nextStart <= now && d in s.peers && s.peers[d].due.Some? && s.peers[d].due.value <= now
    ensures forall e | e in s.peers && e != d && s.peers[e].due.Some? && s.peers[e].due.value <= now ::
              s.peers[d].due.value < s.peers[e].due.value || (s.peers[d].due.value == s.peers[e].due.value && d < e)
    ensures s.TakeDue(now) == Sched(s.peers[d := s.peers[d].(state := Connecting, due := None)], now + 100_000_000)
  {
    forall e | e in s.peers && e != d && s.peers[e].due.Some? && s.peers[e].due.value <= now
      ensures s.peers[d].due.value < s.peers[e].due.value || (s.peers[d].due.value == s.peers[e].due.value && d < e)
    {
      assert s.DueBy(e, now);
    }
  }

  /** Among any peers that are due there is a first. */
  lemma {:induction false} FirstDue(s: Sched, now: Instant, among: set<DeviceId>) returns (d: DeviceId)
    requires among != {} && forall e | e in among :: s.DueBy(e, now)
    ensures d in among && forall e | e in among :: s.Before(d, e)
    decreases |among|
  {
    d :| d in among;
    if among != {d} {
      assert among == (among - {d}) + {d};
      var f := FirstDue(s, now, among - {d});
      if !s.Before(d, f) {
        d := f;
      }
    }
  }

  /** The supervisor never waits past work and never wakes for nothing: a peer is chosen at `now`
      exactly when the deadline exists and has been reached. */
  lemma TakenExactlyAtDeadline(s: Sched, now: Instant, deadline: Option<Instant>)
    requires s.IsDeadline(deadline)
    ensures s.Pick(now).Some? <==> deadline.Some? && deadline.value <= now
  {
    var due := set d | d in s.peers && s.DueBy(d, now);
    if deadline.Some? && deadline.value <= now {
      var e: Instant :| s.Earliest(e) && deadline.value == Max(e, s.nextStart);
      var x :| x in s.peers && s.peers[x].due == Some(e);
      assert s.DueBy(x, now);
      assert x in due;
      var d := FirstDue(s, now, due);
      assert s.Picks(now, d);
      PickIsUnique(s, now, d);
    }
  }

  // ----- the scheduler object -----

  class Scheduler {
    var peers: map<DeviceId, Peer>
    var nextStart: Instant

    ghost function View(): Sched
      reads this
    {
      Sched(peers, nextStart)
    }

    constructor (now: Instant)
      ensures View() == Sched(map[], now)
    {
      peers, nextStart := map[], now;
    }

    method Insert(d: DeviceId, now: Instant) returns (ok: bool)
      modifies this
      ensures ok == old(View()).HasRoom(d) && View() == old(View()).Insert(d, now)
    {
      if d in peers {
        return true;
      }
      if |peers| == MAX_MANAGED_PEERS {
        return false;
      }
      peers := peers[d := NewPeer(now)];
      return true;
    }

    method Deadline() returns (deadline: Option<Instant>)
      ensures View().IsDeadline(deadline)
    {
      var left := peers.Keys;
      var least: Option<Instant> := None;
      while left != {}
        invariant left <= peers.Keys
        invariant least.Some? ==> exists d :: d in peers && peers[d].due == least
        invariant forall d | d in peers && d !in left && peers[d].due.Some? :: least.Some? && least.value <= peers[d].due.value
        decreases |left|
      {
        var d :| d in left;
        left := left - {d};
        var due := peers[d].due;
        if due.Some? && (least.None? || due.value < least.value) {
          least := due;
        }
      }
      if least.None? {
        return None;
      }
      assert View().Earliest(least.value);
      return Some(Max(least.value, nextStart));
    }

    method TakeDue(now: Instant) returns (taken: Option<DeviceId>)
      modifies this
      ensures taken == old(View()).Pick(now) && View() == old(View()).TakeDue(now)
    {
      if now < nextStart {
        return None;
      }
      var left := peers.Keys;
      taken := None;
      while left != {}
        invariant left <= peers.Keys
        invariant taken.Some? ==> View().DueBy(taken.value, now)
        invariant forall e | e in peers && e !in left && View().DueBy(e, now) :: taken.Some? && View().Before(taken.value, e)
        invariant View() == old(View())
        decreases |left|
      {
        var d :| d in left;
        left := left - {d};
        var due := peers[d].due;
        if due.Some? && due.value <= now {
          if taken.None? || due.value < peers[taken.value].due.value
             || (due.value == peers[taken.value].due.value && d < taken.value) {
            taken := Some(d);
          }
        }
      }
      if taken.Some? {
        PickIsUnique(View(), now, taken.value);
        nextStart := now + START_SPACING;
        peers := peers[taken.value := peers[taken.value].Dialling()];
      }
    }
  }
}
