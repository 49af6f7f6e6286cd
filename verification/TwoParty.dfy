/** TWO-PARTY OUTCOMES. A sender and a receiver of one transfer exchange messages that may be lost,
    duplicated, reordered and replayed: what was sent once may be delivered at any time, any
    number of times, or never. */
module TwoParty {
  import opened Common
  import opened Transfers

  /** `role` is the direction of the machine that sent the message. */
  datatype Message = AcceptMsg(offset: nat) | TerminalMsg(role: Direction, status: Status) | AckMsg(role: Direction)

  /** Both machines, the operations each has performed, and every message ever sent. */
  datatype Net = Net(sender: Transfer, receiver: Transfer, senderOps: seq<Op>, receiverOps: seq<Op>, sent: set<Message>) {
    function Machine(role: Direction): Transfer {
      if role == Outgoing then sender else receiver
    }

    function Ops(role: Direction): seq<Op> {
      if role == Outgoing then senderOps else receiverOps
    }

    function Perform(role: Direction, op: Op): Net {
      if role == Outgoing then this.(sender := Step(sender, op), senderOps := senderOps + [op])
      else this.(receiver := Step(receiver, op), receiverOps := receiverOps + [op])
    }
  }

  function Other(role: Direction): Direction {
    if role == Outgoing then Incoming else Outgoing
  }

  /** Operations a machine performs of its own accord, or for a data stream; the rest take a message. */
  predicate Local(op: Op) {
    !(op.ReceiveAccept? || op.PersistPeerTerminal? || op.ReceiveAck?)
  }

  datatype Event =
    | Act(role: Direction, op: Op)
    | SayAccept(offset: nat)
    | SayTerminal(role: Direction)
    | TakeAccept(offset: nat)
    | TakeTerminal(role: Direction, status: Status)
    | TakeAck(role: Direction)

  predicate Enabled(n: Net, e: Event) {
    match e
    case Act(_, op) => Local(op)
    case SayAccept(_) => PastAcceptance(n.receiver)
    case SayTerminal(role) => n.Machine(role).Outcome().Some?
    case TakeAccept(offset) => AcceptMsg(offset) in n.sent
    case TakeTerminal(role, status) => TerminalMsg(Other(role), status) in n.sent
    case TakeAck(role) => AckMsg(Other(role)) in n.sent
  }

  /** An event that cannot happen does not. A terminal message that is taken is acknowledged. */
  function Happen(n: Net, e: Event): Net {
    if !Enabled(n, e) then n else
    match e
    case Act(role, op) => n.Perform(role, op)
    case SayAccept(offset) => n.(sent := n.sent + {AcceptMsg(offset)})
    case SayTerminal(role) => n.(sent := n.sent + {TerminalMsg(role, n.Machine(role).Outcome().value)})
    case TakeAccept(offset) => n.Perform(Outgoing, ReceiveAccept(offset))
    case TakeTerminal(role, status) =>
      var taken := n.Perform(role, PersistPeerTerminal(status));
      if Apply(n.Machine(role), PersistPeerTerminal(status)).Ok? then taken.(sent := taken.sent + {AckMsg(role)}) else taken
    case TakeAck(role) => n.Perform(role, ReceiveAck)
  }

  ghost function Play(n: Net, es: seq<Event>): Net {
    if es == [] then n else Happen(Play(n, es[..|es| - 1]), es[|es| - 1])
  }

  predicate Start(n: Net) {
    && Fresh(n.sender) && n.sender.direction == Outgoing && Fresh(n.receiver) && n.receiver.direction == Incoming
    && n.senderOps == [] && n.receiverOps == [] && n.sent == {}
  }

  // ----- what every step keeps -----

  ghost predicate EverAccepted(start: Net, n: Net) {
    exists i: nat :: AcceptsAt(start.receiver, n.receiverOps, i)
  }

  /** Messages tell the truth, and the two outcomes fit together. */
  ghost predicate Honest(start: Net, n: Net) {
    && (forall role, status | TerminalMsg(role, status) in n.sent :: n.Machine(role).Outcome() == Some(status))
    && (forall role | AckMsg(role) in n.sent :: n.Machine(role).Outcome().Some?)
    && (forall offset | AcceptMsg(offset) in n.sent :: EverAccepted(start, n))
    && (n.sender.Outcome() in {Some(Completed), Some(Rejected)} ==> n.receiver.Outcome() == n.sender.Outcome())
    && (n.sender.state.Settled? ==> n.receiver.Outcome().Some?)
    && (n.receiver.state.Settled? ==> n.sender.Outcome().Some?)
    && (n.sender.state.Accepted? || n.sender.state.Sending? || n.sender.state.WaitingForTerminal? ==> EverAccepted(start, n))
  }

  ghost predicate Tracks(start: Net, n: Net) {
    && n.sender == Run(start.sender, n.senderOps) && n.receiver == Run(start.receiver, n.receiverOps)
    && n.sender.direction == Outgoing && n.receiver.direction == Incoming && Start(start)
  }

  lemma RunOne(t: Transfer, ops: seq<Op>, op: Op)
    ensures Run(t, ops + [op]) == Step(Run(t, ops), op)
  {
  }

  lemma AcceptsStill(t: Transfer, ops: seq<Op>, op: Op, i: nat)
    requires AcceptsAt(t, ops, i)
    ensures AcceptsAt(t, ops + [op], i)
  {
    assert (ops + [op])[..i] == ops[..i];
  }

  lemma PerformTracks(start: Net, n: Net, role: Direction, op: Op)
    requires Tracks(start, n)
    ensures Tracks(start, n.Perform(role, op))
    ensures EverAccepted(start, n) ==> EverAccepted(start, n.Perform(role, op))
  {
    hide Run, AcceptsAt, Step;
    RunOne(start.sender, n.senderOps, op);
    RunOne(start.receiver, n.receiverOps, op);
    StepKeepsOutcome(n.Machine(role), op);
    if EverAccepted(start, n) {
      var i: nat :| AcceptsAt(start.receiver, n.receiverOps, i);
      AcceptsStill(start.receiver, n.receiverOps, op, i);
    }
  }

  lemma StepKeepsOutcome(t: Transfer, op: Op)
    ensures t.Outcome().Some? ==> Step(t, op).Outcome() == t.Outcome()
    ensures SameFile(t, Step(t, op))
    ensures t.direction == Incoming && Step(t, op).Outcome() in {Some(Completed), Some(Rejected)} && t.Outcome().None? ==>
              op.PersistTerminal?
    ensures t.direction == Outgoing && Step(t, op).Outcome() in {Some(Completed), Some(Rejected)} && t.Outcome().None? ==>
              op.PersistPeerTerminal? && Step(t, op).Outcome() == Some(op.status)
    ensures Step(t, op).state.Settled? && !t.state.Settled? ==> op.PersistPeerTerminal? || op.ReceiveAck?
    ensures t.direction == Outgoing && Step(t, op).state.Accepted? && !t.state.Accepted? ==> op.ReceiveAccept?
    ensures Step(t, op).state.Sending? ==> t.state.Sending? || t.state.Accepted?
    ensures Step(t, op).state.WaitingForTerminal? ==> t.state.WaitingForTerminal? || t.state.Sending?
    ensures op.PersistPeerTerminal? && Apply(t, op).Ok? ==> Step(t, op).Outcome().Some?
  {
  }

  lemma ReceiverAccepted(start: Net, n: Net)
    requires Tracks(start, n) && PastAcceptance(n.receiver)
    ensures EverAccepted(start, n)
  {
    assert n.receiverOps[..|n.receiverOps|] == n.receiverOps;
    var i := AcceptedBefore(start.receiver, n.receiverOps, |n.receiverOps|);
  }

  /** Performing an operation keeps the messages true; the operations that take a message need it. */
  lemma PerformHonest(start: Net, n: Net, role: Direction, op: Op)
    requires Tracks(start, n) && Honest(start, n)
    requires Local(op) || (op.ReceiveAccept? && AcceptMsg(op.offset) in n.sent && role == Outgoing)
             || (op.PersistPeerTerminal? && TerminalMsg(Other(role), op.status) in n.sent)
             || (op.ReceiveAck? && AckMsg(Other(role)) in n.sent)
    ensures Honest(start, n.Perform(role, op))
  {
    hide Run, Step, EverAccepted;
    PerformTracks(start, n, role, op);
    StepKeepsOutcome(n.Machine(role), op);
  }

  lemma SayHonest(start: Net, n: Net, e: Event)
    requires Tracks(start, n) && Honest(start, n) && Enabled(n, e) && (e.SayAccept? || e.SayTerminal?)
    ensures Tracks(start, Happen(n, e)) && Honest(start, Happen(n, e))
  {
    if e.SayAccept? {
      ReceiverAccepted(start, n);
    }
    assert Happen(n, e).receiverOps == n.receiverOps;
    hide Run;
  }

  lemma TakeTerminalHonest(start: Net, n: Net, role: Direction, status: Status)
    requires Tracks(start, n) && Honest(start, n) && TerminalMsg(Other(role), status) in n.sent
    ensures Honest(start, Happen(n, TakeTerminal(role, status)))
  {
    hide Tracks, Step, EverAccepted, Apply;
    PerformHonest(start, n, role, PersistPeerTerminal(status));
    StepKeepsOutcome(n.Machine(role), PersistPeerTerminal(status));
    AckHonest(start, n.Perform(role, PersistPeerTerminal(status)), role);
  }

  lemma AckHonest(start: Net, n: Net, role: Direction)
    requires Honest(start, n)
    ensures n.Machine(role).Outcome().Some? ==> Honest(start, n.(sent := n.sent + {AckMsg(role)}))
  {
  }

  lemma HappenHonest(start: Net, n: Net, e: Event)
    requires Tracks(start, n) && Honest(start, n)
    ensures Tracks(start, Happen(n, e)) && Honest(start, Happen(n, e))
  {
    hide Honest, Step, Run, Apply;
    if Enabled(n, e) {
      match e {
        case Act(role, op) =>
          PerformTracks(start, n, role, op);
          PerformHonest(start, n, role, op);
        case SayAccept(_) => SayHonest(start, n, e);
        case SayTerminal(_) => SayHonest(start, n, e);
        case TakeAccept(offset) =>
          PerformTracks(start, n, Outgoing, ReceiveAccept(offset));
          PerformHonest(start, n, Outgoing, ReceiveAccept(offset));
        case TakeTerminal(role, status) =>
          PerformTracks(start, n, role, PersistPeerTerminal(status));
          TakeTerminalHonest(start, n, role, status);
        case TakeAck(role) =>
          PerformTracks(start, n, role, ReceiveAck);
          PerformHonest(start, n, role, ReceiveAck);
      }
    }
  }

  lemma {:induction false} EveryNetIsHonest(start: Net, es: seq<Event>)
    requires Start(start)
    ensures Tracks(start, Play(start, es)) && Honest(start, Play(start, es))
    decreases |es|
  {
    if es != [] {
      hide Tracks, Honest, Happen;
      EveryNetIsHonest(start, es[..|es| - 1]);
      HappenHonest(start, Play(start, es[..|es| - 1]), es[|es| - 1]);
    }
  }

  // ----- the theorem -----

  /** A sender that sees Completed is right: the receiver accepted the offer, received and verified
      the whole payload under one attempt, and its own outcome is Completed. */
  lemma SenderCompleted(start: Net, es: seq<Event>) returns (i: nat, m: Milestones, a: Attempt)
    requires Start(start) && Play(start, es).sender.Outcome() == Some(Completed)
    ensures var n := Play(start, es);
            && n.receiver.Outcome() == Some(Completed)
            && Reached(start.receiver, n.receiverOps, m, a) && m.verified < i < |n.receiverOps|
            && n.receiverOps[i] == PersistTerminal(Completed, Some(a))
  {
    var n := Play(start, es);
    EveryNetIsHonest(start, es);
    hide Play, Reached;
    assert n.receiverOps[..|n.receiverOps|] == n.receiverOps;
    i, m, a := CompletedWasVerified(start.receiver, n.receiverOps, |n.receiverOps|);
  }

  /** A sender that sees Rejected is right: the receiver rejected the offer and never accepted it. */
  lemma SenderRejected(start: Net, es: seq<Event>)
    requires Start(start) && Play(start, es).sender.Outcome() == Some(Rejected)
    ensures Play(start, es).receiver.Outcome() == Some(Rejected) && !EverAccepted(start, Play(start, es))
  {
    var n := Play(start, es);
    EveryNetIsHonest(start, es);
    hide Play;
    assert n.receiverOps[..|n.receiverOps|] == n.receiverOps;
    forall i: nat ensures !AcceptsAt(start.receiver, n.receiverOps, i) {
      RejectedWasNeverAccepted(start.receiver, n.receiverOps, |n.receiverOps|, i);
    }
  }

  lemma HappenKeepsOutcome(n: Net, e: Event, role: Direction)
    ensures n.Machine(role).Outcome().Some? ==> Happen(n, e).Machine(role).Outcome() == n.Machine(role).Outcome()
  {
  }

  /** What either machine has decided stays decided, however the exchange goes on. */
  lemma {:induction false} OutcomesArePermanent(n: Net, more: seq<Event>, role: Direction)
    ensures n.Machine(role).Outcome().Some? ==> Play(n, more).Machine(role).Outcome() == n.Machine(role).Outcome()
    decreases |more|
  {
    if more != [] {
      hide Happen;
      OutcomesArePermanent(n, more[..|more| - 1], role);
      HappenKeepsOutcome(Play(n, more[..|more| - 1]), more[|more| - 1], role);
    }
  }

  /** One machine settles only once the other has an outcome, and a sender sends payload only to
      a receiver that accepted. */
  lemma SettlementIsMutual(start: Net, es: seq<Event>)
    requires Start(start)
    ensures var n := Play(start, es);
            && (n.sender.state.Settled? ==> n.receiver.Outcome().Some?)
            && (n.receiver.state.Settled? ==> n.sender.Outcome().Some?)
            && (n.sender.state.Sending? ==> EverAccepted(start, n))
  {
    EveryNetIsHonest(start, es);
  }

  // ----- when the two outcomes agree -----

  /** Operation `i` is this machine's own decision of its outcome. */
  ghost predicate DecidesAt(t: Transfer, ops: seq<Op>, i: nat) {
    i < |ops| && ops[i].PersistTerminal? && After(t, ops, i).Outcome().None? && Apply(After(t, ops, i), ops[i]).Ok?
  }

  ghost predicate DecidedItself(t: Transfer, ops: seq<Op>) {
    exists i: nat :: DecidesAt(t, ops, i)
  }

  /** A machine's outcome is its own decision, or else the other machine's outcome. */
  ghost predicate OwnOrTold(start: Net, n: Net, role: Direction) {
    n.Machine(role).Outcome().Some? ==>
      DecidedItself(start.Machine(role), n.Ops(role)) || n.Machine(Other(role)).Outcome() == n.Machine(role).Outcome()
  }

  lemma DecidedStill(t: Transfer, ops: seq<Op>, op: Op)
    requires DecidedItself(t, ops)
    ensures DecidedItself(t, ops + [op])
  {
    var i: nat :| DecidesAt(t, ops, i);
    assert (ops + [op])[..i] == ops[..i];
    assert DecidesAt(t, ops + [op], i);
  }

  lemma DecidesNow(t: Transfer, ops: seq<Op>, op: Op)
    requires op.PersistTerminal? && Run(t, ops).Outcome().None? && Apply(Run(t, ops), op).Ok?
    ensures DecidedItself(t, ops + [op])
  {
    assert (ops + [op])[..|ops|] == ops;
    assert DecidesAt(t, ops + [op], |ops|);
  }

  /** A machine gets an outcome only by deciding it or by being told it. */
  lemma GetsOutcome(t: Transfer, op: Op)
    requires t.Outcome().None? && Step(t, op).Outcome().Some?
    ensures Apply(t, op).Ok? && (op.PersistTerminal? || (op.PersistPeerTerminal? && Step(t, op).Outcome() == Some(op.status)))
  {
  }

  lemma PerformOwnOrTold(start: Net, n: Net, role: Direction, op: Op, other: Direction)
    requires Tracks(start, n) && Honest(start, n) && OwnOrTold(start, n, other)
    requires op.PersistPeerTerminal? ==> TerminalMsg(Other(role), op.status) in n.sent
    ensures OwnOrTold(start, n.Perform(role, op), other)
  {
    hide Step, Apply, Run, DecidedItself;
    var t := n.Machine(role);
    StepKeepsOutcome(t, op);
    if DecidedItself(start.Machine(role), n.Ops(role)) {
      DecidedStill(start.Machine(role), n.Ops(role), op);
    }
    if t.Outcome().None? && Step(t, op).Outcome().Some? {
      GetsOutcome(t, op);
      if op.PersistTerminal? {
        DecidesNow(start.Machine(role), n.Ops(role), op);
      }
    }
  }

  lemma HappenOwnOrTold(start: Net, n: Net, e: Event, role: Direction)
    requires Tracks(start, n) && Honest(start, n) && OwnOrTold(start, n, role)
    ensures OwnOrTold(start, Happen(n, e), role)
  {
    hide Tracks, Honest, Apply, DecidedItself;
    if Enabled(n, e) {
      match e {
        case Act(r, op) => PerformOwnOrTold(start, n, r, op, role);
        case TakeAccept(offset) => PerformOwnOrTold(start, n, Outgoing, ReceiveAccept(offset), role);
        case TakeTerminal(r, status) => PerformOwnOrTold(start, n, r, PersistPeerTerminal(status), role);
        case TakeAck(r) => PerformOwnOrTold(start, n, r, ReceiveAck, role);
        case _ =>
      }
    }
  }

  lemma {:induction false} EveryOutcomeIsOwnOrTold(start: Net, es: seq<Event>, role: Direction)
    requires Start(start)
    ensures OwnOrTold(start, Play(start, es), role)
    decreases |es|
  {
    if es != [] {
      hide Happen, OwnOrTold;
      EveryOutcomeIsOwnOrTold(start, es[..|es| - 1], role);
      EveryNetIsHonest(start, es[..|es| - 1]);
      HappenOwnOrTold(start, Play(start, es[..|es| - 1]), es[|es| - 1], role);
    }
  }

  /** A sender never decides on completion itself. */
  lemma OwnDecisionIsNotCompletion(t: Transfer, ops: seq<Op>)
    requires Fresh(t) && t.direction == Outgoing && DecidedItself(t, ops)
    ensures Run(t, ops).Outcome().Some? && Run(t, ops).Outcome() != Some(Completed)
  {
    var i: nat :| DecidesAt(t, ops, i);
    EveryRunIsWellFormed(t, ops, i);
    AfterNext(t, ops, i);
    OutcomeIsForever(t, ops, i + 1, |ops|);
    assert ops[..|ops|] == ops;
  }

  /** The converse of completion, exactly: once the receiver has completed and the sender has an
      outcome, the sender's is Completed if and only if the sender never decided for itself. */
  lemma CompletionIsSeenExactly(start: Net, es: seq<Event>)
    requires Start(start)
    requires Play(start, es).receiver.Outcome() == Some(Completed) && Play(start, es).sender.Outcome().Some?
    ensures var n := Play(start, es);
            n.sender.Outcome() == Some(Completed) <==> !DecidedItself(start.sender, n.senderOps)
  {
    EveryNetIsHonest(start, es);
    EveryOutcomeIsOwnOrTold(start, es, Outgoing);
    hide Play, DecidedItself, Honest;
    var n := Play(start, es);
    if DecidedItself(start.sender, n.senderOps) {
      OwnDecisionIsNotCompletion(start.sender, n.senderOps);
    }
  }

  /** What can be checked before the message is taken: it makes the sender's outcome Completed if
      and only if the sender has no outcome yet, or that one. */
  lemma TakingCompletion(start: Net, es: seq<Event>)
    requires Start(start)
    ensures var n := Play(start, es);
            TerminalMsg(Incoming, Completed) in n.sent ==>
              (Happen(n, TakeTerminal(Outgoing, Completed)).sender.Outcome() == Some(Completed)
               <==> n.sender.Outcome() in {None, Some(Completed)})
  {
    hide Play, Honest, Happen, Run;
    EveryNetIsHonest(start, es);
    if TerminalMsg(Incoming, Completed) in Play(start, es).sent {
      CompletionTaken(Play(start, es));
    }
  }

  lemma CompletionTaken(n: Net)
    requires n.sender.direction == Outgoing && TerminalMsg(Incoming, Completed) in n.sent
    ensures Happen(n, TakeTerminal(Outgoing, Completed)).sender.Outcome() == Some(Completed)
       <==> n.sender.Outcome() in {None, Some(Completed)}
  {
  }

  /** From any start the receiver can come to complete while the sender is still undecided. */
  lemma CompletionIsReached(start: Net) returns (es: seq<Event>)
    requires Start(start) && start.receiver.metadata.byteLen <= MAX_TRANSFER_BYTES
    ensures Play(start, es).receiver.state == Completing(1) && Play(start, es).sender == start.sender
    ensures Play(start, es).receiver.direction == Incoming
  {
    hide Play, Step;
    var t := start.receiver;
    var e1, e2, e3 := Act(Incoming, PersistAcceptance(0)), Act(Incoming, BeginReceive(BlobV1(t.id, 0, t.metadata.byteLen))),
                      Act(Incoming, VerifyPayload(1));
    PlayOne(start, [], e1);
    PlayOne(start, [] + [e1], e2);
    PlayOne(start, [] + [e1] + [e2], e3);
    es := [] + [e1] + [e2] + [e3];
    ReceiverCompletes(t);
  }

  lemma ReceiverCompletes(t: Transfer)
    requires Fresh(t) && t.direction == Incoming && t.metadata.byteLen <= MAX_TRANSFER_BYTES
    ensures var u := Step(Step(Step(t, PersistAcceptance(0)), BeginReceive(BlobV1(t.id, 0, t.metadata.byteLen))), VerifyPayload(1));
            u.state == Completing(1) && u.direction == Incoming
  {
    assert Step(t, PersistAcceptance(0)) == t.(state := State.Accepted(0));
  }

  /** So the converse does fail: a sender that cancels before hearing of the completion keeps its
      own outcome, whatever it is told later. */
  lemma CompletionMayGoUnseen(start: Net, more: seq<Event>) returns (es: seq<Event>)
    requires Start(start) && start.receiver.metadata.byteLen <= MAX_TRANSFER_BYTES
    ensures var n := Play(start, es);
            n.receiver.Outcome() == Some(Completed) && Play(n, more).sender.Outcome() == Some(Cancelled)
  {
    var before := CompletionIsReached(start);
    var e1, e2 := Act(Incoming, PersistTerminal(Completed, Some(1))), Act(Outgoing, PersistTerminal(Cancelled, None));
    PlayOne(start, before, e1);
    PlayOne(start, before + [e1], e2);
    es := before + [e1] + [e2];
    hide Play;
    OutcomesArePermanent(Play(start, es), more, Outgoing);
  }

  lemma PlayOne(n: Net, es: seq<Event>, e: Event)
    ensures Play(n, es + [e]) == Happen(Play(n, es), e) && Play(n, []) == n
  {
  }

  // ----- no exchange is ever stuck -----

  /** A net of one file with well-formed machines, as every run has. */
  predicate Ready(n: Net) {
    && n.sender.direction == Outgoing && n.receiver.direction == Incoming && WellFormed(n.sender) && WellFormed(n.receiver)
    && n.sender.metadata.byteLen == n.receiver.metadata.byteLen <= MAX_TRANSFER_BYTES
  }

  predicate Undecided(n: Net) {
    n.sender.Outcome().None? && n.receiver.Outcome().None?
  }

  lemma Two(n: Net, e1: Event, e2: Event)
    ensures Play(n, [e1, e2]) == Happen(Happen(n, e1), e2)
  {
    PlayOne(n, [], e1);
    PlayOne(n, [e1], e2);
    assert [] + [e1] == [e1] && [e1] + [e2] == [e1, e2];
  }

  lemma {:induction false} PlayJoins(n: Net, es: seq<Event>, more: seq<Event>)
    ensures Play(n, es + more) == Play(Play(n, es), more)
    decreases |more|
  {
    if more == [] {
      assert es + more == es;
    } else {
      var last := |more| - 1;
      PlayJoins(n, es, more[..last]);
      assert es + more == (es + more[..last]) + [more[last]];
      assert more == more[..last] + [more[last]];
      PlayOne(n, es + more[..last], more[last]);
      PlayOne(Play(n, es), more[..last], more[last]);
    }
  }

  /** Whatever they were doing, both sides drop it, and the sender offers again. */
  lemma Restart(n: Net) returns (es: seq<Event>)
    requires Ready(n) && Undecided(n)
    ensures var m := Play(n, es);
            && Ready(m) && m.sender.state == Offered && m.receiver.state in {PendingOffer, State.Paused}
            && (n.receiver.state != PendingOffer ==> m.receiver.state == State.Paused)
            && m.sender.nextAttempt == n.sender.nextAttempt && m.receiver.nextAttempt == n.receiver.nextAttempt
            && m.receiver.id == n.receiver.id && m.receiver.metadata == n.receiver.metadata
  {
    var e1, e2, e3 := Act(Incoming, PauseAll), Act(Outgoing, PauseAll), Act(Outgoing, SendOffer);
    Two(n, e1, e2);
    PlayOne(n, [e1, e2], e3);
    es := [e1, e2] + [e3];
    hide Play;
  }

  /** The receiver accepts what it durably has, and the sender hears of it. */
  lemma Agree(n: Net, durable: nat) returns (es: seq<Event>)
    requires Ready(n) && n.sender.state == Offered && n.receiver.state in {PendingOffer, State.Paused}
    requires durable <= n.receiver.metadata.byteLen && (n.receiver.state == PendingOffer ==> durable == 0)
    ensures var m := Play(n, es);
            && Ready(m) && m.sender.state == m.receiver.state == Accepted(durable)
            && m.sender.nextAttempt == n.sender.nextAttempt && m.receiver.nextAttempt == n.receiver.nextAttempt
            && m.receiver.id == n.receiver.id && m.receiver.metadata == n.receiver.metadata
  {
    var e1, e2, e3 := Act(Incoming, PersistAcceptance(durable)), SayAccept(durable), TakeAccept(durable);
    Two(n, e1, e2);
    PlayOne(n, [e1, e2], e3);
    es := [e1, e2] + [e3];
    hide Play;
  }

  lemma Begin(n: Net, durable: nat) returns (es: seq<Event>)
    requires Ready(n) && n.sender.state == n.receiver.state == Accepted(durable)
    requires n.sender.nextAttempt < U64_MAX && n.receiver.nextAttempt < U64_MAX
    ensures var m := Play(n, es);
            && Ready(m) && m.sender.state == Sending(n.sender.nextAttempt + 1)
            && m.receiver.state == Receiving(n.receiver.nextAttempt + 1)
  {
    var header := BlobV1(n.receiver.id, durable, n.receiver.metadata.byteLen - durable);
    Two(n, Act(Outgoing, BeginSend), Act(Incoming, BeginReceive(header)));
    es := [Act(Outgoing, BeginSend), Act(Incoming, BeginReceive(header))];
    hide Play;
  }

  /** The payload is sent, received and verified. */
  lemma Verify(n: Net, a: Attempt, b: Attempt) returns (es: seq<Event>)
    requires Ready(n) && n.sender.state == Sending(a) && n.receiver.state == Receiving(b)
    ensures var m := Play(n, es); Ready(m) && m.sender.state == WaitingForTerminal(a) && m.receiver.state == Completing(b)
  {
    Two(n, Act(Outgoing, FinishSend(a)), Act(Incoming, VerifyPayload(b)));
    es := [Act(Outgoing, FinishSend(a)), Act(Incoming, VerifyPayload(b))];
    hide Play;
  }

  /** The receiver publishes, tells the sender and hears back. */
  lemma Publish(n: Net, a: Attempt) returns (es: seq<Event>)
    requires Ready(n) && n.receiver.state == Completing(a) && n.sender.Outcome().None?
    ensures Play(n, es).sender.state == Settled(Completed) == Play(n, es).receiver.state
  {
    var e1, e2 := Act(Incoming, PersistTerminal(Completed, Some(a))), SayTerminal(Incoming);
    var e3, e4 := TakeTerminal(Outgoing, Completed), TakeAck(Incoming);
    Two(n, e1, e2);
    Two(Play(n, [e1, e2]), e3, e4);
    PlayJoins(n, [e1, e2], [e3, e4]);
    es := [e1, e2] + [e3, e4];
    hide Play;
  }

  /** NO TRANSFER IS STUCK. Wherever a run has come, while neither side has an outcome and both can
      still start an attempt, it can go on, from any durable offset, to where both sides have
      settled on completion. */
  lemma CanStillComplete(start: Net, es: seq<Event>, durable: nat) returns (more: seq<Event>)
    requires Start(start) && start.sender.metadata == start.receiver.metadata
    requires start.receiver.metadata.byteLen <= MAX_TRANSFER_BYTES && durable <= start.receiver.metadata.byteLen
    requires var n := Play(start, es);
             && Undecided(n) && n.sender.nextAttempt < U64_MAX && n.receiver.nextAttempt < U64_MAX
             && (n.receiver.state == PendingOffer ==> durable == 0)
    ensures var m := Play(start, es + more); m.sender.state == Settled(Completed) == m.receiver.state
  {
    var n := Play(start, es);
    EveryNetIsReady(start, es);
    hide Play, Ready, Undecided;
    var m1 := Restart(n);
    var m2 := Agree(Play(n, m1), durable);
    var m3 := Begin(Play(Play(n, m1), m2), durable);
    var begun := Play(Play(Play(n, m1), m2), m3);
    var m4 := Verify(begun, begun.sender.state.attempt, begun.receiver.state.attempt);
    var m5 := Publish(Play(begun, m4), begun.receiver.state.attempt);
    PlayJoins(n, m1, m2);
    PlayJoins(n, m1 + m2, m3);
    PlayJoins(n, m1 + m2 + m3, m4);
    PlayJoins(n, m1 + m2 + m3 + m4, m5);
    more := m1 + m2 + m3 + m4 + m5;
    PlayJoins(start, es, more);
  }

  lemma EveryNetIsReady(start: Net, es: seq<Event>)
    requires Start(start) && start.sender.metadata == start.receiver.metadata
    requires start.receiver.metadata.byteLen <= MAX_TRANSFER_BYTES
    ensures Ready(Play(start, es)) && Play(start, es).receiver.metadata == start.receiver.metadata
  {
    EveryNetIsHonest(start, es);
    var n := Play(start, es);
    hide Play, Honest;
    FreshRunIsWellFormed(start.sender, n.senderOps);
    FreshRunIsWellFormed(start.receiver, n.receiverOps);
  }

  lemma FreshRunIsWellFormed(t: Transfer, ops: seq<Op>)
    requires Fresh(t)
    ensures WellFormed(Run(t, ops)) && SameFile(t, Run(t, ops))
  {
    EveryRunIsWellFormed(t, ops, |ops|);
    assert ops[..|ops|] == ops;
  }

  /** One side tells the other of its outcome, and settles once that is acknowledged. */
  lemma SettleOne(n: Net, role: Direction) returns (es: seq<Event>)
    requires Ready(n) && n.Machine(role).Outcome().Some?
    requires n.sender.Outcome() in {Some(Completed), Some(Rejected)} ==> n.receiver.Outcome().Some?
    ensures var m := Play(n, es);
            && m.Machine(role).state == Settled(n.Machine(role).Outcome().value) && m.Machine(Other(role)).Outcome().Some?
            && Ready(m) && (n.Machine(Other(role)).Outcome().Some? ==> m.Machine(Other(role)) == n.Machine(Other(role)))
  {
    var status := n.Machine(role).Outcome().value;
    var e1, e2, e3 := SayTerminal(role), TakeTerminal(Other(role), status), TakeAck(role);
    Two(n, e1, e2);
    PlayOne(n, [e1, e2], e3);
    es := [e1, e2] + [e3];
    hide Play;
  }

  /** EVERY OUTCOME SETTLES. Wherever a run has come, once one side has an outcome it can go on to where
      both have settled, each on an outcome it had or was told. */
  lemma CanStillSettle(start: Net, es: seq<Event>) returns (more: seq<Event>)
    requires Start(start) && start.sender.metadata == start.receiver.metadata
    requires start.receiver.metadata.byteLen <= MAX_TRANSFER_BYTES && !Undecided(Play(start, es))
    ensures var m := Play(start, es + more); m.sender.state.Settled? && m.receiver.state.Settled?
  {
    var n := Play(start, es);
    EveryNetIsReady(start, es);
    EveryNetIsHonest(start, es);
    hide Play, Ready;
    var role := if n.sender.Outcome().Some? then Outgoing else Incoming;
    var m1 := SettleOne(n, role);
    var n1 := Play(n, m1);
    var m2 := SettleOne(n1, Other(role));
    PlayJoins(n, m1, m2);
    more := m1 + m2;
    PlayJoins(start, es, more);
    SettledStays(n1, m2, role);
  }

  lemma {:induction false} SettledStays(n: Net, es: seq<Event>, role: Direction)
    requires n.Machine(role).state.Settled?
    ensures Play(n, es).Machine(role).state.Settled?
    decreases |es|
  {
    if es != [] {
      SettledStays(n, es[..|es| - 1], role);
    }
  }
}
