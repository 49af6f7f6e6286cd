/** One logical transfer of rift-transfer: its states, attempt generations and terminal outcomes,
    independent of sessions, files and persistence. */
module Transfers {
  import opened Common

  const MAX_TRANSFER_BYTES: nat := 0x100_0000_0000

  type TransferId = nat
  type Attempt = nat

  datatype Direction = Outgoing | Incoming

  datatype FailureCode = Integrity | SourceChanged | Io | Resource | Protocol

  datatype Status = Completed | Rejected | Cancelled | Failed(code: FailureCode)

  datatype State =
    | Queued
    | Offered
    | PendingOffer
    | Accepted(offset: nat)
    | Sending(attempt: Attempt)
    | Receiving(attempt: Attempt)
    | Completing(attempt: Attempt)
    | WaitingForTerminal(attempt: Attempt)
    | Paused
    | TerminalAwaitingAck(status: Status)
    | Settled(status: Status)

  datatype Fault =
    | WrongDirection | UnexpectedState | InvalidOffset | ConflictingMetadata | WrongTransfer | StaleAttempt
    | AttemptExhausted | ConflictingTerminal

  datatype Metadata = Metadata(fileName: string, byteLen: nat, digest: seq<byte>)

  /** The header of a data stream: which transfer, from where, and how many bytes follow. */
  datatype Header = BlobV1(id: TransferId, offset: nat, remaining: nat) {
    /** The declared range is exactly the rest of a file of this length. */
    predicate Valid(total: nat) {
      total <= MAX_TRANSFER_BYTES && offset <= total && remaining == total - offset
    }
  }

  datatype OfferReplay = Pending | Accept(offset: nat) | Terminal(status: Status)

  /** Each operation is either refused, changing nothing, or yields the next transfer. */
  datatype Transfer = Transfer(
    peer: DeviceId, id: TransferId, metadata: Metadata, direction: Direction, state: State, nextAttempt: nat)
  {
    function Outcome(): Option<Status> {
      match state
      case TerminalAwaitingAck(s) => Some(s)
      case Settled(s) => Some(s)
      case _ => None
    }

    /** The worker generation that owns the transfer. */
    function Active(): Option<Attempt> {
      match state
      case Sending(a) => Some(a)
      case Receiving(a) => Some(a)
      case Completing(a) => Some(a)
      case WaitingForTerminal(a) => Some(a)
      case _ => None
    }

    function OfferSent(): Result<Transfer, Fault> {
      if direction != Outgoing then Err(WrongDirection)
      else if state in {Queued, State.Paused, Offered} then Ok(this.(state := Offered))
      else Err(UnexpectedState)
    }

    function AcceptReceived(offset: nat): Result<Transfer, Fault> {
      if direction != Outgoing then Err(WrongDirection)
      else if offset > metadata.byteLen then Err(InvalidOffset)
      else if state != Offered then Err(UnexpectedState)
      else Ok(this.(state := Accepted(offset)))
    }

    function AcceptancePersisted(offset: nat): Result<Transfer, Fault> {
      if direction != Incoming then Err(WrongDirection)
      else if offset > metadata.byteLen then Err(InvalidOffset)
      else if (state == PendingOffer && offset == 0) || state == State.Paused || state.Accepted?
      then Ok(this.(state := Accepted(offset)))
      else Err(UnexpectedState)
    }

    function ReplayOffer(offered: Metadata, durable: nat): Result<OfferReplay, Fault> {
      if direction != Incoming then Err(WrongDirection)
      else if offered != metadata then Err(ConflictingMetadata)
      else if state == PendingOffer then Ok(Pending)
      else if Outcome().Some? then Ok(Terminal(Outcome().value))
      else if state.Accepted? || state.Paused? || state.Receiving? || state.Completing? then
        if durable > metadata.byteLen then Err(InvalidOffset) else Ok(Accept(durable))
      else Err(UnexpectedState)
    }

    function StartSend(): Result<Transfer, Fault> {
      if direction != Outgoing then Err(WrongDirection)
      else if !state.Accepted? then Err(UnexpectedState)
      else if nextAttempt >= U64_MAX then Err(AttemptExhausted)
      else Ok(this.(state := Sending(nextAttempt + 1), nextAttempt := nextAttempt + 1))
    }

    function StartReceive(header: Header): Result<Transfer, Fault> {
      if direction != Incoming then Err(WrongDirection)
      else if header.id != id then Err(WrongTransfer)
      else if !header.Valid(metadata.byteLen) then Err(InvalidOffset)
      else if state != Accepted(header.offset) then Err(UnexpectedState)
      else if nextAttempt >= U64_MAX then Err(AttemptExhausted)
      else Ok(this.(state := Receiving(nextAttempt + 1), nextAttempt := nextAttempt + 1))
    }

    function SendFinished(attempt: Attempt): Result<Transfer, Fault> {
      if direction != Outgoing then Err(WrongDirection)
      else if state != Sending(attempt) then Err(StaleAttempt)
      else Ok(this.(state := WaitingForTerminal(attempt)))
    }

    function PayloadVerified(attempt: Attempt): Result<Transfer, Fault> {
      if direction != Incoming then Err(WrongDirection)
      else if state != Receiving(attempt) then Err(StaleAttempt)
      else Ok(this.(state := Completing(attempt)))
    }

    function Pause(): Transfer {
      if Active().Some? || state.Offered? || state.Accepted? then this.(state := State.Paused) else this
    }

    function TerminalPersisted(status: Status, worker: Option<Attempt>): Result<Transfer, Fault> {
      if Outcome().Some? then if Outcome().value == status then Ok(this) else Err(ConflictingTerminal)
      else if status == Completed && direction != Incoming then Err(WrongDirection)
      else if worker.Some? && Active() != worker then Err(StaleAttempt)
      else if status == Completed && (worker.None? || state != Completing(worker.value)) then Err(StaleAttempt)
      else if status == Rejected && direction != Incoming then Err(WrongDirection)
      else if status == Rejected && state != PendingOffer then Err(UnexpectedState)
      else Ok(this.(state := TerminalAwaitingAck(status)))
    }

    function PeerTerminalPersisted(status: Status): Result<Transfer, Fault> {
      if Outcome().Some? then Ok(this)
      else if status in {Completed, Rejected} && direction != Outgoing then Err(WrongDirection)
      else Ok(this.(state := Settled(status)))
    }

    function TerminalAckReceived(): Result<Transfer, Fault> {
      if Outcome().Some? then Ok(this.(state := Settled(Outcome().value))) else Err(UnexpectedState)
    }
  }

  function NewTransfer(peer: DeviceId, id: TransferId, metadata: Metadata, direction: Direction): Transfer {
    Transfer(peer, id, metadata, direction, if direction == Outgoing then Queued else PendingOffer, 0)
  }

  predicate Fresh(t: Transfer) {
    t == NewTransfer(t.peer, t.id, t.metadata, t.direction)
  }

  // ----- runs -----

  datatype Op =
    | SendOffer
    | ReceiveAccept(offset: nat)
    | PersistAcceptance(offset: nat)
    | BeginSend
    | BeginReceive(header: Header)
    | FinishSend(attempt: Attempt)
    | VerifyPayload(attempt: Attempt)
    | PauseAll
    | PersistTerminal(status: Status, worker: Option<Attempt>)
    | PersistPeerTerminal(status: Status)
    | ReceiveAck

  function Apply(t: Transfer, op: Op): Result<Transfer, Fault> {
    match op
    case SendOffer => t.OfferSent()
    case ReceiveAccept(offset) => t.AcceptReceived(offset)
    case PersistAcceptance(offset) => t.AcceptancePersisted(offset)
    case BeginSend => t.StartSend()
    case BeginReceive(header) => t.StartReceive(header)
    case FinishSend(a) => t.SendFinished(a)
    case VerifyPayload(a) => t.PayloadVerified(a)
    case PauseAll => Ok(t.Pause())
    case PersistTerminal(s, w) => t.TerminalPersisted(s, w)
    case PersistPeerTerminal(s) => t.PeerTerminalPersisted(s)
    case ReceiveAck => t.TerminalAckReceived()
  }

  function Step(t: Transfer, op: Op): Transfer {
    if Apply(t, op).Ok? then Apply(t, op).value else t
  }

  ghost function Run(t: Transfer, ops: seq<Op>): Transfer {
    if ops == [] then t else Step(Run(t, ops[..|ops| - 1]), ops[|ops| - 1])
  }

  /** The transfer after the first `i` operations. */
  ghost function After(t: Transfer, ops: seq<Op>, i: nat): Transfer
    requires i <= |ops|
  {
    Run(t, ops[..i])
  }

  lemma AfterNext(t: Transfer, ops: seq<Op>, i: nat)
    requires i < |ops|
    ensures After(t, ops, i + 1) == Step(After(t, ops, i), ops[i])
  {
    assert ops[..i + 1][..i] == ops[..i];
  }

  /** What every run keeps: the owner is the latest generation, states fit the direction, and the
      identity and metadata never change. */
  predicate WellFormed(t: Transfer) {
    && t.nextAttempt <= U64_MAX
    && (t.Active().Some? ==> t.Active().value == t.nextAttempt && t.nextAttempt > 0)
    && (t.state.Queued? || t.state.Offered? || t.state.Sending? || t.state.WaitingForTerminal? ==> t.direction == Outgoing)
    && (t.state.PendingOffer? || t.state.Receiving? || t.state.Completing? ==> t.direction == Incoming)
    && (t.state.Accepted? ==> t.state.offset <= t.metadata.byteLen)
  }

  predicate SameFile(t: Transfer, u: Transfer) {
    u.peer == t.peer && u.id == t.id && u.metadata == t.metadata && u.direction == t.direction
  }

  lemma StepWellFormed(t: Transfer, op: Op)
    requires WellFormed(t)
    ensures WellFormed(Step(t, op)) && SameFile(t, Step(t, op)) && t.nextAttempt <= Step(t, op).nextAttempt
  {
  }

  /** In every run the owning attempt is the latest generation allocated. */
  lemma {:induction false} EveryRunIsWellFormed(t: Transfer, ops: seq<Op>, i: nat)
    requires WellFormed(t) && i <= |ops|
    ensures WellFormed(After(t, ops, i)) && SameFile(t, After(t, ops, i))
    ensures t.nextAttempt <= After(t, ops, i).nextAttempt
    decreases i
  {
    if i > 0 {
      hide WellFormed;
      EveryRunIsWellFormed(t, ops, i - 1);
      AfterNext(t, ops, i - 1);
      StepWellFormed(After(t, ops, i - 1), ops[i - 1]);
    }
  }

  // ----- when each operation is possible -----

  /** In every state a run can reach, exactly these operations go through, and each to this state. */
  lemma OperationsApply(t: Transfer, offset: nat, header: Header, a: Attempt, status: Status)
    requires WellFormed(t)
    ensures t.OfferSent().Ok? <==> t.direction == Outgoing && (t.state.Queued? || t.state.Paused? || t.state.Offered?)
    ensures t.AcceptReceived(offset).Ok? <==> t.state.Offered? && offset <= t.metadata.byteLen
    ensures t.AcceptancePersisted(offset).Ok? <==>
              && t.direction == Incoming && offset <= t.metadata.byteLen
              && (t.state.Paused? || t.state.Accepted? || (t.state.PendingOffer? && offset == 0))
    ensures t.StartSend().Ok? <==> t.direction == Outgoing && t.state.Accepted? && t.nextAttempt < 0xFFFF_FFFF_FFFF_FFFF
    ensures t.StartReceive(header).Ok? <==>
              && t.direction == Incoming && t.state == Accepted(header.offset) && header.id == t.id
              && header.offset + header.remaining == t.metadata.byteLen <= 0x100_0000_0000
              && t.nextAttempt < 0xFFFF_FFFF_FFFF_FFFF
    ensures t.SendFinished(a).Ok? <==> t.state == Sending(a)
    ensures t.PayloadVerified(a).Ok? <==> t.state == Receiving(a)
    ensures t.TerminalAckReceived().Ok? <==> t.Outcome().Some?
    ensures t.TerminalPersisted(status, None).Ok? <==>
              if t.Outcome().Some? then t.Outcome().value == status
              else status != Completed && (status == Rejected ==> t.state.PendingOffer?)
    ensures t.TerminalPersisted(status, Some(a)).Ok? <==>
              if t.Outcome().Some? then t.Outcome().value == status
              else t.Active() == Some(a) && status != Rejected && (status == Completed ==> t.state == Completing(a))
    ensures t.PeerTerminalPersisted(status).Ok? <==>
              t.Outcome().Some? || t.direction == Outgoing || (status != Completed && status != Rejected)
  {
  }

  /** A refused operation says why, and the first reason that holds: the wrong side, the wrong
      transfer, an impossible offset, an outcome already decided differently, a superseded attempt,
      or no generation left. */
  lemma FaultsInOrder(t: Transfer, op: Op)
    requires WellFormed(t)
    ensures op.SendOffer? || op.ReceiveAccept? || op.BeginSend? || op.FinishSend? ==>
              (Apply(t, op) == Err(WrongDirection) <==> t.direction == Incoming)
    ensures op.PersistAcceptance? || op.BeginReceive? || op.VerifyPayload? ==>
              (Apply(t, op) == Err(WrongDirection) <==> t.direction == Outgoing)
    ensures op.ReceiveAccept? || op.PersistAcceptance? ==>
              (Apply(t, op) == Err(InvalidOffset) <==>
                 t.direction == (if op.ReceiveAccept? then Outgoing else Incoming) && op.offset > t.metadata.byteLen)
    ensures op.BeginReceive? && t.direction == Incoming ==>
              && (Apply(t, op) == Err(WrongTransfer) <==> op.header.id != t.id)
              && (Apply(t, op) == Err(InvalidOffset) <==>
                    op.header.id == t.id && !(op.header.offset + op.header.remaining == t.metadata.byteLen <= 0x100_0000_0000))
    ensures Apply(t, op) == Err(AttemptExhausted) <==>
              && t.nextAttempt == 0xFFFF_FFFF_FFFF_FFFF && (op.BeginSend? || op.BeginReceive?)
              && Apply(t.(nextAttempt := 0), op).Ok?
    ensures Apply(t, op) == Err(ConflictingTerminal) <==>
              op.PersistTerminal? && t.Outcome().Some? && t.Outcome().value != op.status
    ensures op.PersistTerminal? && op.worker.Some? && t.Outcome().None? && op.worker != t.Active() ==>
              Apply(t, op) == Err(if op.status == Completed && t.direction == Outgoing then WrongDirection else StaleAttempt)
    ensures op.FinishSend? && t.direction == Outgoing ==> (Apply(t, op) == Err(StaleAttempt) <==> t.state != Sending(op.attempt))
    ensures op.VerifyPayload? && t.direction == Incoming ==> (Apply(t, op) == Err(StaleAttempt) <==> t.state != Receiving(op.attempt))
  {
  }

  /** Pausing leaves nothing in flight: no owner, no offer waiting for its answer, no offset to
      start from. What was not in flight is left alone. */
  lemma PauseDropsWork(t: Transfer)
    requires WellFormed(t)
    ensures var p := t.Pause();
            && p.Active().None? && !p.state.Offered? && !p.state.Accepted? && p.nextAttempt == t.nextAttempt
            && p.state == (if t.state.Queued? || t.state.PendingOffer? || t.Outcome().Some? then t.state else State.Paused)
  {
  }

  /** A repeated offer of the same file is answered by where the transfer stands: pending, the
      outcome, or the durable length to go on from. */
  lemma RepliesToOffer(t: Transfer, offered: Metadata, durable: nat)
    requires WellFormed(t) && t.direction == Incoming
    ensures var r := t.ReplayOffer(offered, durable);
            && (r == Err(ConflictingMetadata) <==> offered != t.metadata)
            && (r == Ok(Pending) <==> offered == t.metadata && t.state.PendingOffer?)
            && (forall s :: r == Ok(Terminal(s)) <==> offered == t.metadata && t.Outcome() == Some(s))
            && (r == Ok(Accept(durable)) <==>
                  offered == t.metadata && durable <= t.metadata.byteLen && !t.state.PendingOffer? && t.Outcome().None?)
            && (r == Err(InvalidOffset) <==>
                  offered == t.metadata && durable > t.metadata.byteLen && !t.state.PendingOffer? && t.Outcome().None?)
  {
  }

  // ----- fencing -----

  /** The worker generation on whose behalf an operation is made. */
  function Worker(op: Op): Option<Attempt> {
    match op
    case FinishSend(a) => Some(a)
    case VerifyPayload(a) => Some(a)
    case PersistTerminal(_, w) => w
    case _ => None
  }

  /** An allocated generation that no longer owns the transfer: paused, replaced or finished. */
  predicate Superseded(t: Transfer, a: Attempt) {
    a <= t.nextAttempt && t.Active() != Some(a)
  }

  lemma SupersededStays(t: Transfer, op: Op, a: Attempt)
    requires WellFormed(t) && Superseded(t, a)
    ensures Superseded(Step(t, op), a)
    ensures Worker(op) == Some(a) ==> Step(t, op) == t
  {
  }

  /** From the moment an attempt is superseded, nothing it reports ever changes the transfer. */
  lemma {:induction false} SupersededIsFenced(t: Transfer, ops: seq<Op>, i: nat, j: nat, a: Attempt)
    requires WellFormed(t) && i <= j < |ops| && Superseded(After(t, ops, i), a)
    ensures Superseded(After(t, ops, j), a)
    ensures Worker(ops[j]) == Some(a) ==> After(t, ops, j + 1) == After(t, ops, j)
    decreases j
  {
    hide WellFormed, Superseded, Step;
    if i < j {
      SupersededIsFenced(t, ops, i, j - 1, a);
      EveryRunIsWellFormed(t, ops, j - 1);
      AfterNext(t, ops, j - 1);
      SupersededStays(After(t, ops, j - 1), ops[j - 1], a);
    }
    EveryRunIsWellFormed(t, ops, j);
    AfterNext(t, ops, j);
    SupersededStays(After(t, ops, j), ops[j], a);
  }

  /** Pausing supersedes the owner; so does every later start, whose generation is new. */
  lemma PauseSupersedes(t: Transfer, a: Attempt)
    requires WellFormed(t) && t.Active() == Some(a)
    ensures Superseded(t.Pause(), a) && t.Pause().state == State.Paused
  {
  }

  predicate Starts(t: Transfer, op: Op) {
    (op.BeginSend? || op.BeginReceive?) && Apply(t, op).Ok?
  }

  lemma StartIsNew(t: Transfer, op: Op)
    requires WellFormed(t) && Starts(t, op)
    ensures Step(t, op).Active() == Some(t.nextAttempt + 1) && Step(t, op).nextAttempt == t.nextAttempt + 1
  {
  }

  /** No two starts of a run are given the same generation. */
  lemma StartsAreDistinct(t: Transfer, ops: seq<Op>, i: nat, j: nat)
    requires WellFormed(t) && i < j < |ops| && Starts(After(t, ops, i), ops[i]) && Starts(After(t, ops, j), ops[j])
    ensures After(t, ops, i + 1).Active().Some? && After(t, ops, j + 1).Active().Some?
    ensures After(t, ops, i + 1).Active().value < After(t, ops, j + 1).Active().value
  {
    hide WellFormed, Starts, Step;
    EveryRunIsWellFormed(t, ops, i);
    EveryRunIsWellFormed(t, ops, j);
    AfterNext(t, ops, i);
    AfterNext(t, ops, j);
    StartIsNew(After(t, ops, i), ops[i]);
    StartIsNew(After(t, ops, j), ops[j]);
    GenerationsGrow(t, ops, i + 1, j);
  }

  lemma {:induction false} GenerationsGrow(t: Transfer, ops: seq<Op>, i: nat, j: nat)
    requires WellFormed(t) && i <= j <= |ops|
    ensures After(t, ops, i).nextAttempt <= After(t, ops, j).nextAttempt
    decreases j
  {
    if i < j {
      hide WellFormed, Step;
      GenerationsGrow(t, ops, i, j - 1);
      EveryRunIsWellFormed(t, ops, j - 1);
      AfterNext(t, ops, j - 1);
      StepWellFormed(After(t, ops, j - 1), ops[j - 1]);
    }
  }

  // ----- outcomes -----

  /** An outcome never changes, nothing becomes active again, and settlement is not undone. */
  lemma {:induction false} OutcomeIsForever(t: Transfer, ops: seq<Op>, i: nat, j: nat)
    requires i <= j <= |ops| && After(t, ops, i).Outcome().Some?
    ensures After(t, ops, j).Outcome() == After(t, ops, i).Outcome() && After(t, ops, j).Active().None?
    ensures After(t, ops, i).state.Settled? ==> After(t, ops, j).state == After(t, ops, i).state
    decreases j
  {
    if i < j {
      OutcomeIsForever(t, ops, i, j - 1);
      AfterNext(t, ops, j - 1);
    }
  }

  /** Where an incoming transfer stands. */
  datatype Milestones = Milestones(accepted: nat, started: nat, verified: nat)

  /** Operation `m.accepted` accepted the offer, `m.started` began a reception, and `m.verified`
      verified that very attempt. */
  ghost predicate Reached(t: Transfer, ops: seq<Op>, m: Milestones, a: Attempt) {
    && m.accepted < m.started < m.verified < |ops|
    && AcceptsAt(t, ops, m.accepted)
    && Starts(After(t, ops, m.started), ops[m.started]) && After(t, ops, m.started + 1).state == Receiving(a)
    && ops[m.verified] == VerifyPayload(a) && After(t, ops, m.verified).state == Receiving(a)
  }

  ghost predicate AcceptsAt(t: Transfer, ops: seq<Op>, i: nat) {
    i < |ops| && ops[i].PersistAcceptance? && Apply(After(t, ops, i), ops[i]).Ok?
  }

  /** States an incoming transfer reaches only once accepted. */
  predicate PastAcceptance(t: Transfer) {
    t.state.Accepted? || t.state.Receiving? || t.state.Completing? || t.state.Paused?
  }

  lemma {:induction false} AcceptedBefore(t: Transfer, ops: seq<Op>, n: nat) returns (i: nat)
    requires Fresh(t) && t.direction == Incoming && n <= |ops| && PastAcceptance(After(t, ops, n))
    ensures i < n && AcceptsAt(t, ops, i)
    decreases n
  {
    EveryRunIsWellFormed(t, ops, n);
    if n > 0 {
      AfterNext(t, ops, n - 1);
      EveryRunIsWellFormed(t, ops, n - 1);
    }
    if PastAcceptance(After(t, ops, n - 1)) {
      i := AcceptedBefore(t, ops, n - 1);
    } else {
      i := n - 1;
    }
  }

  lemma {:induction false} StartedBefore(t: Transfer, ops: seq<Op>, n: nat, a: Attempt) returns (i: nat)
    requires Fresh(t) && n <= |ops| && After(t, ops, n).state == Receiving(a)
    ensures i < n && Starts(After(t, ops, i), ops[i]) && After(t, ops, i).state.Accepted?
    ensures After(t, ops, i + 1).state == Receiving(a)
    decreases n
  {
    AfterNext(t, ops, n - 1);
    if After(t, ops, n - 1).state == Receiving(a) {
      i := StartedBefore(t, ops, n - 1, a);
    } else {
      i := n - 1;
    }
  }

  lemma {:induction false} VerifiedBefore(t: Transfer, ops: seq<Op>, n: nat, a: Attempt) returns (i: nat)
    requires Fresh(t) && n <= |ops| && After(t, ops, n).state == Completing(a)
    ensures i < n && ops[i] == VerifyPayload(a) && After(t, ops, i).state == Receiving(a)
    decreases n
  {
    AfterNext(t, ops, n - 1);
    if After(t, ops, n - 1).state == Completing(a) {
      i := VerifiedBefore(t, ops, n - 1, a);
    } else {
      i := n - 1;
    }
  }

  /** An incoming transfer whose outcome is Completed was accepted, then received and verified
      under one attempt, and that attempt reported the completion. */
  lemma {:induction false} CompletedWasVerified(t: Transfer, ops: seq<Op>, n: nat) returns (i: nat, m: Milestones, a: Attempt)
    requires Fresh(t) && t.direction == Incoming && n <= |ops| && After(t, ops, n).Outcome() == Some(Completed)
    ensures i < n && ops[i] == PersistTerminal(Completed, Some(a)) && Reached(t, ops, m, a) && m.verified < i
    ensures After(t, ops, i).state == Completing(a)
    decreases n
  {
    AfterNext(t, ops, n - 1);
    EveryRunIsWellFormed(t, ops, n - 1);
    if After(t, ops, n - 1).Outcome() == Some(Completed) {
      i, m, a := CompletedWasVerified(t, ops, n - 1);
    } else {
      i, a := n - 1, After(t, ops, n - 1).state.attempt;
      var v := VerifiedBefore(t, ops, i, a);
      var s := StartedBefore(t, ops, v, a);
      EveryRunIsWellFormed(t, ops, s);
      var k := AcceptedBefore(t, ops, s);
      m := Milestones(k, s, v);
    }
  }

  /** An incoming transfer whose outcome is Rejected was never accepted, before or after. */
  lemma RejectedWasNeverAccepted(t: Transfer, ops: seq<Op>, n: nat, i: nat)
    requires Fresh(t) && t.direction == Incoming && n <= |ops| && After(t, ops, n).Outcome() == Some(Rejected)
    ensures !AcceptsAt(t, ops, i)
  {
    if AcceptsAt(t, ops, i) {
      AfterNext(t, ops, i);
      if n <= i {
        OutcomeIsForever(t, ops, n, i);
      } else {
        NotRejectedLater(t, ops, i + 1, n);
      }
    }
  }

  lemma {:induction false} NotRejectedLater(t: Transfer, ops: seq<Op>, i: nat, n: nat)
    requires Fresh(t) && t.direction == Incoming && i <= n <= |ops|
    requires !After(t, ops, i).state.PendingOffer? && After(t, ops, i).Outcome() != Some(Rejected)
    ensures !After(t, ops, n).state.PendingOffer? && After(t, ops, n).Outcome() != Some(Rejected)
    decreases n
  {
    if i < n {
      NotRejectedLater(t, ops, i, n - 1);
      EveryRunIsWellFormed(t, ops, n - 1);
      AfterNext(t, ops, n - 1);
    }
  }
}

/** The transfer as the source keeps it: one object whose methods update it in place. Each method
    is proved to be the corresponding operation, and to leave the object alone when it refuses. */
module LogicalTransfers {
  import opened Common
  import opened Transfers

  class LogicalTransfer {
    const peer: DeviceId
    const id: TransferId
    const metadata: Metadata
    const direction: Direction
    var state: State
    var nextAttempt: nat

    function View(): Transfer
      reads this
    {
      Transfer(peer, id, metadata, direction, state, nextAttempt)
    }

    constructor (peer: DeviceId, id: TransferId, metadata: Metadata, direction: Direction)
      ensures View() == NewTransfer(peer, id, metadata, direction)
      ensures WellFormed(View()) && Fresh(View())
    {
      this.peer, this.id, this.metadata, this.direction := peer, id, metadata, direction;
      state := match direction case Outgoing => Queued case Incoming => PendingOffer;
      nextAttempt := 0;
    }

    /** The method did what `result` says: the new value, or nothing. */
    predicate Did(before: Transfer, result: Result<Transfer, Fault>, refused: Option<Fault>)
      reads this
    {
      match result
      case Ok(t) => View() == t && refused.None?
      case Err(fault) => View() == before && refused == Some(fault)
    }

    method OfferSent() returns (refused: Option<Fault>)
      modifies this
      ensures Did(old(View()), old(View().OfferSent()), refused)
    {
      refused := RequireDirection(Outgoing);
      if refused.Some? {
        return;
      }
      match state
      case Queued | Paused | Offered => state := Offered;
      case _ => refused := Some(UnexpectedState);
    }

    method AcceptReceived(offset: nat) returns (refused: Option<Fault>)
      modifies this
      ensures Did(old(View()), old(View().AcceptReceived(offset)), refused)
    {
      refused := RequireDirection(Outgoing);
      if refused.Some? {
        return;
      }
      refused := CheckOffset(offset);
      if refused.Some? {
        return;
      }
      if state != Offered {
        return Some(UnexpectedState);
      }
      state := State.Accepted(offset);
    }

    method AcceptancePersisted(offset: nat) returns (refused: Option<Fault>)
      modifies this
      ensures Did(old(View()), old(View().AcceptancePersisted(offset)), refused)
    {
      refused := RequireDirection(Incoming);
      if refused.Some? {
        return;
      }
      refused := CheckOffset(offset);
      if refused.Some? {
        return;
      }
      match state {
        case PendingOffer => if offset != 0 { return Some(UnexpectedState); }
        case Paused =>
        case Accepted(_) =>
        case _ => return Some(UnexpectedState);
      }
      state := State.Accepted(offset);
    }

    /** A repeated offer is answered from the state it finds, which it does not change. */
    method ReplayOffer(offered: Metadata, durable: nat) returns (answer: Result<OfferReplay, Fault>)
      ensures answer == View().ReplayOffer(offered, durable)
    {
      var refused := RequireDirection(Incoming);
      if refused.Some? {
        return Err(refused.value);
      }
      if offered != metadata {
        return Err(ConflictingMetadata);
      }
      match state {
        case PendingOffer => return Ok(Pending);
        case TerminalAwaitingAck(status) => return Ok(OfferReplay.Terminal(status));
        case Settled(status) => return Ok(OfferReplay.Terminal(status));
        case Queued | Offered | Sending(_) | WaitingForTerminal(_) => return Err(UnexpectedState);
        case _ =>
          refused := CheckOffset(durable);
          return if refused.Some? then Err(refused.value) else Ok(Accept(durable));
      }
    }

    /** Starts one sender, giving its generation and the offset it sends from. */
    method StartSend() returns (started: Result<(Attempt, nat), Fault>)
      modifies this
      ensures Did(old(View()), old(View().StartSend()), if started.Err? then Some(started.error) else None)
      ensures started.Ok? ==> View().Active() == Some(started.value.0) && old(state) == State.Accepted(started.value.1)
    {
      var refused := RequireDirection(Outgoing);
      if refused.Some? {
        return Err(refused.value);
      }
      if !state.Accepted? {
        return Err(UnexpectedState);
      }
      var offset := state.offset;
      var attempt := AllocateAttempt();
      if attempt.None? {
        return Err(AttemptExhausted);
      }
      state := Sending(attempt.value);
      return Ok((attempt.value, offset));
    }

    /** Starts the one receiver of an accepted offset, for a header naming exactly the missing suffix. */
    method StartReceive(header: Header) returns (started: Result<Attempt, Fault>)
      modifies this
      ensures Did(old(View()), old(View().StartReceive(header)), if started.Err? then Some(started.error) else None)
      ensures started.Ok? ==> View().Active() == Some(started.value)
    {
      var refused := RequireDirection(Incoming);
      if refused.Some? {
        return Err(refused.value);
      }
      if header.id != id {
        return Err(WrongTransfer);
      }
      if !header.Valid(metadata.byteLen) {
        return Err(InvalidOffset);
      }
      if state != State.Accepted(header.offset) {
        return Err(UnexpectedState);
      }
      var attempt := AllocateAttempt();
      if attempt.None? {
        return Err(AttemptExhausted);
      }
      state := Receiving(attempt.value);
      return Ok(attempt.value);
    }

    method SendFinished(attempt: Attempt) returns (refused: Option<Fault>)
      modifies this
      ensures Did(old(View()), old(View().SendFinished(attempt)), refused)
    {
      refused := RequireDirection(Outgoing);
      if refused.None? {
        if state != Sending(attempt) {
          return Some(StaleAttempt);
        }
        state := WaitingForTerminal(attempt);
      }
    }

    method PayloadVerified(attempt: Attempt) returns (refused: Option<Fault>)
      modifies this
      ensures Did(old(View()), old(View().PayloadVerified(attempt)), refused)
    {
      refused := RequireDirection(Incoming);
      if refused.None? {
        if state != Receiving(attempt) {
          return Some(StaleAttempt);
        }
        state := Completing(attempt);
      }
    }

    /** Drops connection-bound work, naming the worker to cancel, if there was one. */
    method Pause() returns (worker: Option<Attempt>)
      modifies this
      ensures View() == old(View().Pause()) && worker == old(View().Active())
    {
      match state {
        case Sending(a) => worker := Some(a);
        case Receiving(a) => worker := Some(a);
        case Completing(a) => worker := Some(a);
        case WaitingForTerminal(a) => worker := Some(a);
        case Offered => worker := None;
        case Accepted(_) => worker := None;
        case _ => return None;
      }
      state := State.Paused;
    }

    method TerminalPersisted(status: Status, worker: Option<Attempt>) returns (refused: Option<Fault>)
      modifies this
      ensures Did(old(View()), old(View().TerminalPersisted(status, worker)), refused)
    {
      if state.TerminalAwaitingAck? || state.Settled? {
        return if state.status == status then None else Some(ConflictingTerminal);
      }
      if status == Completed {
        refused := RequireDirection(Incoming);
        if refused.Some? {
          return;
        }
      }
      if worker.Some? && View().Active() != worker {
        return Some(StaleAttempt);
      }
      match status {
        case Completed =>
          if worker.None? || state != Completing(worker.value) {
            return Some(StaleAttempt);
          }
        case Rejected =>
          refused := RequireDirection(Incoming);
          if refused.Some? {
            return;
          }
          if state != PendingOffer {
            return Some(UnexpectedState);
          }
        case _ =>
      }
      state := TerminalAwaitingAck(status);
      return None;
    }

    method PeerTerminalPersisted(status: Status) returns (refused: Option<Fault>)
      modifies this
      ensures Did(old(View()), old(View().PeerTerminalPersisted(status)), refused)
    {
      if state.TerminalAwaitingAck? || state.Settled? {
        return None;
      }
      if status == Completed || status == Rejected {
        refused := RequireDirection(Outgoing);
        if refused.Some? {
          return;
        }
      }
      state := Settled(status);
      return None;
    }

    method TerminalAckReceived() returns (refused: Option<Fault>)
      modifies this
      ensures Did(old(View()), old(View().TerminalAckReceived()), refused)
    {
      match state
      case TerminalAwaitingAck(status) => state := Settled(status); refused := None;
      case Settled(_) => refused := None;
      case _ => refused := Some(UnexpectedState);
    }

    method CheckOffset(offset: nat) returns (refused: Option<Fault>)
      ensures refused == if offset > metadata.byteLen then Some(InvalidOffset) else None
    {
      refused := if offset > metadata.byteLen then Some(InvalidOffset) else None;
    }

    method RequireDirection(wanted: Direction) returns (refused: Option<Fault>)
      ensures refused == if direction == wanted then None else Some(WrongDirection)
    {
      refused := if direction == wanted then None else Some(WrongDirection);
    }

    method AllocateAttempt() returns (attempt: Option<Attempt>)
      modifies this`nextAttempt
      ensures attempt.None? <==> old(nextAttempt) >= U64_MAX
      ensures nextAttempt == if attempt.Some? then attempt.value else old(nextAttempt)
      ensures attempt.Some? ==> attempt.value == old(nextAttempt) + 1
    {
      if nextAttempt >= U64_MAX {
        return None;
      }
      nextAttempt := nextAttempt + 1;
      return Some(nextAttempt);
    }
  }
}
