/** The pairing protocol of rift-session: commit, reveal, compare a code, decide, commit trust and
    complete, run by an initiator and a responder over an ordered stream. */
module Pairing {
  import opened Common

  type PairingId = seq<byte>
  type Nonce = seq<byte>
  type Commitment = seq<byte>

  const CODE_MODULUS: nat := 1_000_000

  datatype Role = Initiator | Responder

  datatype Phase =
    | AwaitingRequest | AwaitingResponse | AwaitingReveal | AwaitingLocalDecision | AwaitingRemoteDecision
    | CommittingTrust | AwaitingCompletion | Complete | Rejected | Failed

  datatype Message =
    | RequestMsg(id: PairingId, commitment: Commitment)
    | ResponseMsg(id: PairingId, commitment: Commitment)
    | RevealMsg(id: PairingId, nonce: Nonce)
    | DecisionMsg(id: PairingId, accepted: bool)
    | CompleteMsg(id: PairingId)

  datatype MessageKind = KindRequest | KindResponse | KindReveal | KindDecision | KindComplete

  function KindOf(m: Message): MessageKind {
    match m
    case RequestMsg(_, _) => KindRequest
    case ResponseMsg(_, _) => KindResponse
    case RevealMsg(_, _) => KindReveal
    case DecisionMsg(_, _) => KindDecision
    case CompleteMsg(_) => KindComplete
  }

  /** The kind of message a phase waits for. */
  function ExpectedKind(phase: Phase, role: Role): MessageKind {
    match phase
    case AwaitingRequest => KindRequest
    case AwaitingResponse => KindResponse
    case AwaitingReveal => KindReveal
    case AwaitingLocalDecision | AwaitingRemoteDecision => KindDecision
    case CommittingTrust | AwaitingCompletion => KindComplete
    case _ => if role == Initiator then KindResponse else KindRequest
  }

  datatype PairingError =
    | AlreadyFinished(phase: Phase) | UnexpectedMessage(phase: Phase, expected: MessageKind, received: MessageKind)
    | PairingIdMismatch(phase: Phase)
    | DuplicateDecision(phase: Phase) | CompletionTooEarly(phase: Phase)
    | PairingUnsupported(device: DeviceId) | Timeout(phase: Phase) | Transport(phase: Phase)
    | CommitmentMismatch(phase: Phase) | RejectedByHuman(localAccepted: bool, remoteAccepted: bool) | TrustNotCommitted

  datatype Transcript = Transcript(
    initiator: DeviceId, responder: DeviceId, id: PairingId, initiatorNonce: Nonce, responderNonce: Nonce)

  /** The hash, left abstract: a commitment binds a role, both devices, the attempt and a nonce;
      a transcript's digest is what the code is cut from. */
  datatype Suite = Suite(
    commit: (Role, DeviceId, DeviceId, PairingId, Nonce) -> Commitment, digest: Transcript -> Digest)

  /** The six digits both humans compare. */
  function Code(suite: Suite, t: Transcript): (code: nat)
    ensures code < CODE_MODULUS
  {
    U32Value(suite.digest(t)[..4]) % CODE_MODULUS
  }

  /** The code is the first four bytes of the transcript's digest, as a number, cut to six digits. */
  lemma CodeIsCut(suite: Suite, t: Transcript, n: nat)
    requires n <= U32_MAX && suite.digest(t)[..4] == U32Bytes(n)
    ensures Code(suite, t) == n % 1_000_000
  {
    U32RoundTrip(n);
  }

  /** Nothing of the transcript is left out: for any two there is a hash that gives them different
      codes. */
  lemma CodeTellsApart(t: Transcript, u: Transcript) returns (suite: Suite)
    requires t != u
    ensures Code(suite, t) != Code(suite, u)
  {
    var one: Digest, other: Digest := seq(32, _ => 0), seq(32, i => if i == 3 then 1 else 0);
    suite := Suite((_, _, _, _, _) => [], x => if x == t then one else other);
    assert suite.digest(t)[..4] == U32Bytes(0) && suite.digest(u)[..4] == U32Bytes(1);
    CodeIsCut(suite, t, 0);
    CodeIsCut(suite, u, 1);
  }

  // ----- the state machine -----

  datatype Machine = Machine(
    role: Role, phase: Phase, pairingId: Option<PairingId>, localAccepted: Option<bool>, remoteAccepted: Option<bool>)
  {
    function Inactive(expected: Phase): Option<PairingError> {
      if phase in {Complete, Rejected, Failed} then Some(AlreadyFinished(phase))
      else if phase == expected then None
      else Some(UnexpectedMessage(phase, ExpectedKind(expected, role), ExpectedKind(phase, role)))
    }

    function ReceiveRequest(m: Message): Result<Machine, PairingError> {
      if Inactive(AwaitingRequest).Some? then Err(Inactive(AwaitingRequest).value)
      else if !m.RequestMsg? then Err(UnexpectedMessage(phase, KindRequest, KindOf(m)))
      else Ok(this.(pairingId := Some(m.id), phase := AwaitingReveal))
    }

    function ReceiveResponse(m: Message): Result<Machine, PairingError> {
      if Inactive(AwaitingResponse).Some? then Err(Inactive(AwaitingResponse).value)
      else if !m.ResponseMsg? then Err(UnexpectedMessage(phase, KindResponse, KindOf(m)))
      else if pairingId != Some(m.id) then Err(PairingIdMismatch(phase))
      else Ok(this.(phase := AwaitingReveal))
    }

    function ReceiveReveal(m: Message): Result<Machine, PairingError> {
      if Inactive(AwaitingReveal).Some? then Err(Inactive(AwaitingReveal).value)
      else if !m.RevealMsg? then Err(UnexpectedMessage(phase, KindReveal, KindOf(m)))
      else if pairingId != Some(m.id) then Err(PairingIdMismatch(phase))
      else Ok(this.(phase := AwaitingLocalDecision))
    }

    function LocalDecision(accepted: bool): Result<Machine, PairingError> {
      if localAccepted.Some? then Err(DuplicateDecision(phase))
      else if Inactive(AwaitingLocalDecision).Some? then Err(Inactive(AwaitingLocalDecision).value)
      else Ok(this.(localAccepted := Some(accepted), phase := AwaitingRemoteDecision))
    }

    function RemoteDecision(m: Message): Result<Machine, PairingError> {
      if remoteAccepted.Some? || phase == CommittingTrust then Err(DuplicateDecision(phase))
      else if Inactive(AwaitingRemoteDecision).Some? then Err(Inactive(AwaitingRemoteDecision).value)
      else if m.CompleteMsg? then Err(CompletionTooEarly(phase))
      else if !m.DecisionMsg? then Err(UnexpectedMessage(phase, KindDecision, KindOf(m)))
      else if pairingId != Some(m.id) then Err(PairingIdMismatch(phase))
      else Ok(this.(remoteAccepted := Some(m.accepted),
                    phase := if localAccepted == Some(true) && m.accepted then CommittingTrust else Rejected))
    }

    function TrustCommitted(): Result<Machine, PairingError> {
      if Inactive(CommittingTrust).Some? then Err(Inactive(CommittingTrust).value)
      else Ok(this.(phase := AwaitingCompletion))
    }

    function RemoteCompletion(m: Message): Result<Machine, PairingError> {
      if Inactive(AwaitingCompletion).Some? then Err(Inactive(AwaitingCompletion).value)
      else if m.DecisionMsg? then Err(DuplicateDecision(phase))
      else if !m.CompleteMsg? then Err(UnexpectedMessage(phase, KindComplete, KindOf(m)))
      else if pairingId != Some(m.id) then Err(PairingIdMismatch(phase))
      else Ok(this.(phase := Complete))
    }

    function Fail(): Machine {
      this.(phase := Failed)
    }
  }

  function StartMachine(role: Role, id: PairingId): Machine {
    if role == Initiator then Machine(Initiator, AwaitingResponse, Some(id), None, None)
    else Machine(Responder, AwaitingRequest, None, None, None)
  }

  /** The five phases that wait for a message of the peer. */
  predicate Waits(phase: Phase) {
    phase in {AwaitingRequest, AwaitingResponse, AwaitingReveal, AwaitingRemoteDecision, AwaitingCompletion}
  }

  /** A message given to the machine as the one a phase waits for. */
  function Hear(k: Machine, at: Phase, m: Message): Result<Machine, PairingError>
    requires Waits(at)
  {
    match at
    case AwaitingRequest => k.ReceiveRequest(m)
    case AwaitingResponse => k.ReceiveResponse(m)
    case AwaitingReveal => k.ReceiveReveal(m)
    case AwaitingRemoteDecision => k.RemoteDecision(m)
    case AwaitingCompletion => k.RemoteCompletion(m)
  }

  /** A message is taken if and only if the machine is in the phase that waits for it, it is of the
      kind that phase waits for, and it names this attempt; only the request brings the name. A second
      decision of the peer is never taken. */
  lemma OnlyAwaitedIsTaken(k: Machine, at: Phase, m: Message)
    requires Waits(at)
    ensures Hear(k, at, m).Ok? <==>
              && k.phase == at && KindOf(m) == ExpectedKind(at, k.role) && (at == AwaitingRequest || k.pairingId == Some(m.id))
              && (at == AwaitingRemoteDecision ==> k.remoteAccepted.None?)
    ensures Hear(k, at, m).Ok? ==> Hear(k, at, m).value.pairingId == Some(m.id)
  {
  }

  /** A refusal names the phase it found and the first reason that holds: a second decision, an
      attempt that is over, a call out of turn, a message of another kind (a completion before the
      decision and a decision after it have names of their own), or another attempt's message. */
  lemma RefusalsAreNamed(k: Machine, at: Phase, m: Message)
    requires Waits(at) && Hear(k, at, m).Err?
    ensures var awaited, got := ExpectedKind(at, k.role), KindOf(m);
            Hear(k, at, m).error ==
              if at == AwaitingRemoteDecision && (k.remoteAccepted.Some? || k.phase == CommittingTrust) then DuplicateDecision(k.phase)
              else if k.phase in {Complete, Rejected, Failed} then AlreadyFinished(k.phase)
              else if k.phase != at then UnexpectedMessage(k.phase, awaited, ExpectedKind(k.phase, k.role))
              else if got == awaited then PairingIdMismatch(at)
              else if awaited == KindDecision && got == KindComplete then CompletionTooEarly(at)
              else if awaited == KindComplete && got == KindDecision then DuplicateDecision(at)
              else UnexpectedMessage(at, awaited, got)
  {
  }

  /** This side decides once, on the code; trust is committed once, on two acceptances. */
  lemma OwnStepsInTurn(k: Machine, accepted: bool)
    ensures k.LocalDecision(accepted).Ok? <==> k.phase == AwaitingLocalDecision && k.localAccepted.None?
    ensures k.localAccepted.Some? ==> k.LocalDecision(accepted) == Err(DuplicateDecision(k.phase))
    ensures k.TrustCommitted().Ok? <==> k.phase == CommittingTrust
    ensures k.phase in {Complete, Rejected, Failed} ==>
              && k.TrustCommitted() == Err(AlreadyFinished(k.phase))
              && (k.localAccepted.None? ==> k.LocalDecision(accepted) == Err(AlreadyFinished(k.phase)))
  {
  }

  // ----- one party -----

  /** `commitment` and `revealed` came from the peer; `sent` is everything written to the stream,
      `taken` how many of the peer's messages were read; `trusted` says trust was committed, and
      `ended` that the attempt is over at this side. */
  datatype Party = Party(
    self: DeviceId, peer: DeviceId, machine: Machine, nonce: Nonce, commitment: Option<Commitment>, revealed: Option<Nonce>,
    code: Option<nat>, sent: seq<Message>, taken: nat, trusted: bool, ended: bool)
  {
    function InitiatorId(): DeviceId { if machine.role == Initiator then self else peer }
    function ResponderId(): DeviceId { if machine.role == Initiator then peer else self }
    function OtherRole(): Role { if machine.role == Initiator then Responder else Initiator }

    function Commits(suite: Suite, id: PairingId): Commitment {
      suite.commit(machine.role, InitiatorId(), ResponderId(), id, nonce)
    }

    function Agreed(id: PairingId, theirs: Nonce): Transcript {
      if machine.role == Initiator then Transcript(self, peer, id, nonce, theirs) else Transcript(peer, self, id, theirs, nonce)
    }

    function End(): Party { this.(ended := true) }
  }

  function StartParty(role: Role, self: DeviceId, peer: DeviceId, id: PairingId, nonce: Nonce): Party {
    Party(self, peer, StartMachine(role, id), nonce, None, None, None, [], 0, false, false)
  }

  /** What this side writes next, when it is its turn to write. */
  function NextMessage(suite: Suite, p: Party): Option<Message> {
    if p.ended || p.machine.pairingId.None? then None else
    var id := p.machine.pairingId.value;
    match (p.machine.phase, |p.sent|)
    case (AwaitingResponse, 0) => Some(RequestMsg(id, p.Commits(suite, id)))
    case (AwaitingReveal, 0) => if p.machine.role == Responder then Some(ResponseMsg(id, p.Commits(suite, id))) else None
    case (AwaitingReveal, 1) => Some(RevealMsg(id, p.nonce))
    case (AwaitingRemoteDecision, 2) =>
      if p.machine.localAccepted.Some? then Some(DecisionMsg(id, p.machine.localAccepted.value)) else None
    case (AwaitingCompletion, 3) => Some(CompleteMsg(id))
    case _ => None
  }

  datatype Event =
    | Write
    | Read(m: Message)
    | Decide(accepted: bool, inTime: bool)
    | CommitTrust(stored: bool)
    | Abort

  predicate Reading(suite: Suite, p: Party) {
    !p.ended && NextMessage(suite, p).None? && Waits(p.machine.phase)
  }

  predicate Enabled(suite: Suite, p: Party, e: Event) {
    match e
    case Write => NextMessage(suite, p).Some?
    case Read(_) => Reading(suite, p)
    case Decide(_, _) => !p.ended && p.machine.phase == AwaitingLocalDecision
    case CommitTrust(_) => !p.ended && p.machine.phase == CommittingTrust
    case Abort => !p.ended
  }

  /** Takes the peer's next message; anything unexpected ends the attempt. */
  function Take(suite: Suite, p: Party, m: Message): Party {
    var q := p.(taken := p.taken + 1);
    match p.machine.phase
    case AwaitingRequest => Commit(q, p.machine.ReceiveRequest(m), m)
    case AwaitingResponse => Commit(q, p.machine.ReceiveResponse(m), m)
    case AwaitingReveal => Reveal(suite, q, p.machine.ReceiveReveal(m), m)
    case AwaitingRemoteDecision =>
      var r := p.machine.RemoteDecision(m);
      if r.Err? then q.End() else q.(machine := r.value, ended := r.value.phase == Rejected)
    case AwaitingCompletion =>
      var r := p.machine.RemoteCompletion(m);
      if r.Err? then q.End() else q.(machine := r.value, ended := true)
    case _ => q.End()
  }

  function Commit(q: Party, r: Result<Machine, PairingError>, m: Message): Party {
    if r.Ok? && (m.RequestMsg? || m.ResponseMsg?) then q.(machine := r.value, commitment := Some(m.commitment)) else q.End()
  }

  /** A revealed nonce must open the commitment received before. */
  function Reveal(suite: Suite, q: Party, r: Result<Machine, PairingError>, m: Message): Party {
    if r.Err? || !m.RevealMsg? then q.End()
    else if q.commitment != Some(suite.commit(q.OtherRole(), q.InitiatorId(), q.ResponderId(), m.id, m.nonce))
    then q.(machine := r.value.Fail(), ended := true)
    else q.(machine := r.value, revealed := Some(m.nonce), code := Some(Code(suite, q.Agreed(m.id, m.nonce))))
  }

  function Step(suite: Suite, p: Party, e: Event): Party {
    if !Enabled(suite, p, e) then p else
    match e
    case Write => p.(sent := p.sent + [NextMessage(suite, p).value])
    case Read(m) => Take(suite, p, m)
    case Decide(accepted, inTime) =>
      if !inTime then p.(machine := p.machine.Fail(), ended := true) else
      var r := p.machine.LocalDecision(accepted);
      if r.Err? then p.End() else p.(machine := r.value)
    case CommitTrust(stored) =>
      if !stored then p.(machine := p.machine.Fail(), ended := true) else
      var r := p.machine.TrustCommitted();
      if r.Err? then p.(trusted := true, ended := true) else p.(machine := r.value, trusted := true)
    case Abort => p.End()
  }

  // ----- runs are finite -----

  function Rank(phase: Phase): nat {
    match phase
    case AwaitingRequest => 0
    case AwaitingResponse => 0
    case AwaitingReveal => 1
    case AwaitingLocalDecision => 2
    case AwaitingRemoteDecision => 3
    case CommittingTrust => 4
    case AwaitingCompletion => 5
    case _ => 6
  }

  /** Successful machine operations strictly raise the phase. */
  lemma PhaseRises(k: Machine, m: Message, accepted: bool)
    ensures k.ReceiveRequest(m).Ok? ==> Rank(k.ReceiveRequest(m).value.phase) > Rank(k.phase)
    ensures k.ReceiveResponse(m).Ok? ==> Rank(k.ReceiveResponse(m).value.phase) > Rank(k.phase)
    ensures k.ReceiveReveal(m).Ok? ==> Rank(k.ReceiveReveal(m).value.phase) > Rank(k.phase)
    ensures k.LocalDecision(accepted).Ok? ==> Rank(k.LocalDecision(accepted).value.phase) > Rank(k.phase)
    ensures k.RemoteDecision(m).Ok? ==> Rank(k.RemoteDecision(m).value.phase) > Rank(k.phase)
    ensures k.TrustCommitted().Ok? ==> Rank(k.TrustCommitted().value.phase) > Rank(k.phase)
    ensures k.RemoteCompletion(m).Ok? ==> Rank(k.RemoteCompletion(m).value.phase) > Rank(k.phase)
  {
  }

  /** How far a party has come: at most four messages written, six phases, and the end. */
  function Progress(p: Party): nat {
    |p.sent| + Rank(p.machine.phase) + if p.ended then 1 else 0
  }

  lemma EveryStepProgresses(suite: Suite, p: Party, e: Event)
    requires Enabled(suite, p, e) && |p.sent| <= 4
    ensures Progress(p) < Progress(Step(suite, p, e)) <= 11 && |Step(suite, p, e).sent| <= 4
  {
  }

  // ----- what one party keeps, whatever it is sent -----

  /** The messages written so far are the script of this attempt, as far as it goes. */
  predicate Scripted(suite: Suite, p: Party) {
    |p.sent| > 0 ==>
      && |p.sent| <= 4 && p.machine.pairingId.Some?
      && var id := p.machine.pairingId.value;
      && p.sent[0] == (if p.machine.role == Initiator then RequestMsg(id, p.Commits(suite, id))
                       else ResponseMsg(id, p.Commits(suite, id)))
      && (p.machine.role == Responder ==> p.commitment.Some?)
      && (|p.sent| > 1 ==> p.sent[1] == RevealMsg(id, p.nonce) && p.commitment.Some?)
      && (|p.sent| > 2 ==> p.machine.localAccepted.Some? && p.sent[2] == DecisionMsg(id, p.machine.localAccepted.value))
      && (|p.sent| > 3 ==> p.sent[3] == CompleteMsg(id) && p.trusted)
  }

  /** What the phase says about how far the exchange has come. */
  predicate Paced(p: Party) {
    var k, n := p.machine, |p.sent|;
    match k.phase
    case AwaitingRequest => k.role == Responder && n == 0 && k.pairingId.None? && p.commitment.None? && Undecided(p, 0)
    case AwaitingResponse => k.role == Initiator && n <= 1 && k.pairingId.Some? && p.commitment.None? && Undecided(p, 0)
    case AwaitingReveal =>
      n <= 2 && (k.role == Initiator ==> n > 0) && k.pairingId.Some? && p.commitment.Some? && Undecided(p, 1)
    case AwaitingLocalDecision =>
      n == 2 && p.code.Some? && k.localAccepted.None? && k.remoteAccepted.None? && !p.trusted && Took(p, 2)
    case AwaitingRemoteDecision =>
      2 <= n <= 3 && p.code.Some? && k.localAccepted.Some? && k.remoteAccepted.None? && !p.trusted && Took(p, 2)
    case CommittingTrust =>
      n == 3 && p.code.Some? && k.localAccepted == Some(true) == k.remoteAccepted && Took(p, 3)
    case AwaitingCompletion =>
      3 <= n <= 4 && p.code.Some? && k.localAccepted == Some(true) == k.remoteAccepted && p.trusted && Took(p, 3)
    case Complete => n == 4 && p.trusted && p.ended
    case Rejected =>
      && n == 3 && !p.trusted && p.ended && k.localAccepted.Some? && k.remoteAccepted.Some?
      && !(k.localAccepted == Some(true) == k.remoteAccepted)
    case Failed => p.ended
  }

  predicate Took(p: Party, n: nat) {
    p.ended || p.taken == n
  }

  predicate Undecided(p: Party, n: nat) {
    && p.code.None? && p.revealed.None? && p.machine.localAccepted.None? && p.machine.remoteAccepted.None? && !p.trusted
    && Took(p, n)
  }

  /** The code is that of this side's nonce and a revealed one that opens the peer's commitment. */
  predicate Opened(suite: Suite, p: Party) {
    && p.revealed.Some? && p.machine.pairingId.Some?
    && var id := p.machine.pairingId.value;
    && p.code == Some(Code(suite, p.Agreed(id, p.revealed.value)))
    && p.commitment == Some(suite.commit(p.OtherRole(), p.InitiatorId(), p.ResponderId(), id, p.revealed.value))
  }

  /** A code is shown only for a revealed nonce that opens the commitment; a decision is made only
      on a code; trust is committed only on two acceptances. */
  predicate Justified(suite: Suite, p: Party) {
    && (p.code.Some? ==> Opened(suite, p))
    && (p.machine.localAccepted.Some? ==> p.code.Some?)
    && (p.trusted ==> p.machine.localAccepted == Some(true) == p.machine.remoteAccepted)
  }

  predicate Sound(suite: Suite, p: Party) {
    Scripted(suite, p) && Paced(p) && Justified(suite, p)
  }

  lemma CommitIsSound(suite: Suite, p: Party, m: Message)
    requires Sound(suite, p) && Reading(suite, p) && p.machine.phase in {AwaitingRequest, AwaitingResponse}
    ensures Sound(suite, Take(suite, p, m))
  {
    hide Code;
  }

  lemma DecisionIsSound(suite: Suite, p: Party, m: Message)
    requires Sound(suite, p) && Reading(suite, p) && p.machine.phase in {AwaitingRemoteDecision, AwaitingCompletion}
    ensures Sound(suite, Take(suite, p, m))
  {
    hide Code;
  }

  lemma TakeIsSound(suite: Suite, p: Party, m: Message)
    requires Sound(suite, p) && Reading(suite, p)
    ensures Sound(suite, Take(suite, p, m))
  {
    hide Sound, Take;
    match p.machine.phase
    case AwaitingReveal => RevealIsSound(suite, p, m);
    case AwaitingRequest => CommitIsSound(suite, p, m);
    case AwaitingResponse => CommitIsSound(suite, p, m);
    case _ => DecisionIsSound(suite, p, m);
  }

  lemma RevealIsSound(suite: Suite, p: Party, m: Message)
    requires Sound(suite, p) && Reading(suite, p) && p.machine.phase == AwaitingReveal
    ensures Sound(suite, Take(suite, p, m))
  {
  }

  /** Every step of a party keeps this, whatever messages the other side sends. */
  lemma StepIsSound(suite: Suite, p: Party, e: Event)
    requires Sound(suite, p)
    ensures Sound(suite, Step(suite, p, e))
  {
    if e.Read? && Enabled(suite, p, e) {
      TakeIsSound(suite, p, e.m);
    }
    hide Code, Take;
  }

  /** The revealed nonce does not open the commitment received before. */
  predicate Unopened(suite: Suite, p: Party, m: Message) {
    m.RevealMsg? && p.commitment != Some(suite.commit(p.OtherRole(), p.InitiatorId(), p.ResponderId(), m.id, m.nonce))
  }

  /** Both humans accept, as far as this side can tell from the peer's decision. */
  predicate BothAccept(p: Party, m: Message) {
    m.DecisionMsg? && m.accepted && p.machine.localAccepted == Some(true)
  }

  /** A message that is taken fails the attempt if it is a nonce that does not open its commitment, and
      concludes it if it is the last one; one that is not taken ends it and leaves the phase as it was. */
  lemma HowReadingEnds(suite: Suite, p: Party, m: Message)
    requires Sound(suite, p) && Reading(suite, p)
    ensures var q := Take(suite, p, m);
            var heard := Hear(p.machine, p.machine.phase, m).Ok?;
            && (q.machine.phase == Failed <==> heard && Unopened(suite, p, m))
            && (q.machine.phase == Rejected <==> heard && m.DecisionMsg? && !BothAccept(p, m))
            && (q.machine.phase == Complete <==> heard && m.CompleteMsg?)
            && (q.ended <==> !heard || q.machine.phase in {Failed, Rejected, Complete})
            && (!heard ==> q.machine == p.machine) && q.trusted == p.trusted
  {
    hide Code, Scripted, Justified;
  }

  /** Every other step: the attempt fails when the human is late or the trust store refuses, an abort
      leaves the phase as it was, and nothing else ends it. Trust is committed by the store alone. */
  lemma HowOwnStepsEnd(suite: Suite, p: Party, e: Event)
    requires Sound(suite, p) && Enabled(suite, p, e) && !e.Read?
    ensures var q := Step(suite, p, e);
            && (q.machine.phase == Failed <==> (e.Decide? && !e.inTime) || (e.CommitTrust? && !e.stored))
            && !(q.machine.phase in {Rejected, Complete})
            && (q.ended <==> e.Abort? || q.machine.phase == Failed) && (e.Abort? ==> q.machine == p.machine)
            && (q.trusted <==> p.trusted || (e.CommitTrust? && e.stored))
  {
    hide Code, Scripted, Justified;
  }

  /** What a party has fixed stays fixed: its role, its nonce, what it wrote, and the commitment
      and decisions it has. */
  predicate Grows(p: Party, q: Party) {
    && q.self == p.self && q.peer == p.peer && q.nonce == p.nonce && q.machine.role == p.machine.role
    && p.sent <= q.sent && p.taken <= q.taken && (p.trusted ==> q.trusted) && (p.ended ==> q == p)
    && (p.machine.pairingId.Some? ==> q.machine.pairingId == p.machine.pairingId)
    && (p.commitment.Some? ==> q.commitment == p.commitment)
    && (p.revealed.Some? ==> q.revealed == p.revealed && q.code == p.code)
    && (p.machine.localAccepted.Some? ==> q.machine.localAccepted == p.machine.localAccepted)
    && (p.machine.remoteAccepted.Some? ==> q.machine.remoteAccepted == p.machine.remoteAccepted)
  }

  lemma TakeGrows(suite: Suite, p: Party, m: Message)
    requires Sound(suite, p) && Reading(suite, p)
    ensures Grows(p, Take(suite, p, m))
  {
    hide Code, Scripted, Justified;
  }

  lemma StepGrows(suite: Suite, p: Party, e: Event)
    requires Sound(suite, p)
    ensures Grows(p, Step(suite, p, e))
  {
    if e.Read? && Enabled(suite, p, e) {
      TakeGrows(suite, p, e.m);
    }
    hide Code, Take, Scripted, Justified;
  }

  ghost function Alone(suite: Suite, p: Party, es: seq<Event>): Party {
    if es == [] then p else Step(suite, Alone(suite, p, es[..|es| - 1]), es[|es| - 1])
  }

  lemma StartIsSound(suite: Suite, role: Role, self: DeviceId, peer: DeviceId, id: PairingId, nonce: Nonce)
    ensures Sound(suite, StartParty(role, self, peer, id, nonce))
  {
  }

  lemma {:induction false} AloneIsSound(suite: Suite, p: Party, es: seq<Event>)
    requires Sound(suite, p)
    ensures Sound(suite, Alone(suite, p, es)) && Grows(p, Alone(suite, p, es))
    decreases |es|
  {
    if es != [] {
      hide Sound, Step;
      AloneIsSound(suite, p, es[..|es| - 1]);
      StepIsSound(suite, Alone(suite, p, es[..|es| - 1]), es[|es| - 1]);
      StepGrows(suite, Alone(suite, p, es[..|es| - 1]), es[|es| - 1]);
    }
  }

  /** The code a side shows for its own nonce and the one it was given: cut from the digest of the two
      devices, the attempt and the two nonces, initiator first. */
  function Shown(suite: Suite, role: Role, self: DeviceId, peer: DeviceId, id: PairingId, own: Nonce, theirs: Nonce): nat {
    var t := if role == Initiator then Transcript(self, peer, id, own, theirs) else Transcript(peer, self, id, theirs, own);
    U32Value(suite.digest(t)[..4]) % 1_000_000
  }

  /** Against any peer at all: a nonce is written only after both commitments are fixed, and trust
      is committed only after accepting and being told of acceptance, on a code whose revealed
      nonce opens the commitment that was fixed before this side revealed its own. */
  lemma AgainstAnyPeer(suite: Suite, role: Role, self: DeviceId, peer: DeviceId, id: PairingId, nonce: Nonce,
                       es: seq<Event>, more: seq<Event>)
    ensures var p := Alone(suite, StartParty(role, self, peer, id, nonce), es);
            var q := Alone(suite, p, more);
            && (|p.sent| > 1 ==> p.commitment.Some? && q.commitment == p.commitment && p.sent <= q.sent)
            && (forall i | 0 <= i < |p.sent| && p.sent[i].RevealMsg? :: i == 1)
            && (p.code.Some? ==> Opened(suite, p))
            && (p.code.Some? ==>
                  p.code.value == Shown(suite, role, self, peer, p.machine.pairingId.value, nonce, p.revealed.value))
            && (p.trusted ==> p.machine.localAccepted == Some(true) == p.machine.remoteAccepted && p.code.Some?)
  {
    hide Step;
    var p0 := StartParty(role, self, peer, id, nonce);
    StartIsSound(suite, role, self, peer, id, nonce);
    AloneIsSound(suite, p0, es);
    AloneIsSound(suite, Alone(suite, p0, es), more);
    hide Alone, Code;
  }

  // ----- an honest initiator and an honest responder -----

  datatype Duo = Duo(initiator: Party, responder: Party)

  datatype Move = AtInitiator(e: Event) | AtResponder(e: Event)

  function StartDuo(a: DeviceId, b: DeviceId, id: PairingId, nonceA: Nonce, nonceB: Nonce): Duo {
    Duo(StartParty(Initiator, a, b, id, nonceA), StartParty(Responder, b, a, id, nonceB))
  }

  /** Each side reads exactly what the other wrote, in order. */
  predicate Allowed(suite: Suite, s: Duo, m: Move) {
    var (p, q) := if m.AtInitiator? then (s.initiator, s.responder) else (s.responder, s.initiator);
    Enabled(suite, p, m.e) && (m.e.Read? ==> p.taken < |q.sent| && m.e.m == q.sent[p.taken])
  }

  function Act(suite: Suite, s: Duo, m: Move): Duo {
    if !Allowed(suite, s, m) then s
    else if m.AtInitiator? then s.(initiator := Step(suite, s.initiator, m.e))
    else s.(responder := Step(suite, s.responder, m.e))
  }

  ghost function Play(suite: Suite, s: Duo, ms: seq<Move>): Duo {
    if ms == [] then s else Act(suite, Play(suite, s, ms[..|ms| - 1]), ms[|ms| - 1])
  }

  /** What `p` knows of `q` is what `q` wrote. */
  predicate Hears(suite: Suite, p: Party, q: Party) {
    && p.self == q.peer && p.peer == q.self && p.machine.role != q.machine.role
    && (p.commitment.Some? ==> |q.sent| > 0 && q.machine.pairingId == p.machine.pairingId && p.machine.pairingId.Some?
                               && p.commitment == Some(q.Commits(suite, p.machine.pairingId.value)))
    && (p.revealed.Some? ==> |q.sent| > 1 && p.commitment.Some? && p.revealed == Some(q.nonce))
    && (p.machine.remoteAccepted.Some? ==> |q.sent| > 2 && p.commitment.Some? && q.machine.localAccepted == p.machine.remoteAccepted)
    && (p.machine.phase == Complete ==> |q.sent| > 3)
  }

  ghost predicate Joint(suite: Suite, s: Duo) {
    && Sound(suite, s.initiator) && Sound(suite, s.responder)
    && Hears(suite, s.initiator, s.responder) && Hears(suite, s.responder, s.initiator)
  }

  /** Whatever the other side does, what was heard from it stays true. */
  lemma HearsStill(suite: Suite, p: Party, q: Party, q': Party)
    requires Hears(suite, p, q) && Grows(q, q') && Sound(suite, q)
    ensures Hears(suite, p, q')
  {
  }

  lemma HearsCommitment(suite: Suite, p: Party, q: Party)
    requires Hears(suite, p, q) && Hears(suite, q, p) && Sound(suite, p) && Sound(suite, q)
    requires Reading(suite, p) && p.taken < |q.sent| && p.machine.phase in {AwaitingRequest, AwaitingResponse}
    ensures Hears(suite, Take(suite, p, q.sent[p.taken]), q)
  {
    hide Code, Justified;
  }

  lemma HearsReveal(suite: Suite, p: Party, q: Party)
    requires Hears(suite, p, q) && Hears(suite, q, p) && Sound(suite, p) && Sound(suite, q)
    requires Reading(suite, p) && p.taken < |q.sent| && p.machine.phase == AwaitingReveal
    ensures Hears(suite, Take(suite, p, q.sent[p.taken]), q)
  {
    hide Code, Justified;
  }

  lemma HearsLast(suite: Suite, p: Party, q: Party)
    requires Hears(suite, p, q) && Hears(suite, q, p) && Sound(suite, p) && Sound(suite, q)
    requires Reading(suite, p) && p.taken < |q.sent| && p.machine.phase in {AwaitingRemoteDecision, AwaitingCompletion}
    ensures Hears(suite, Take(suite, p, q.sent[p.taken]), q)
  {
    hide Code, Justified;
  }

  lemma HearsNext(suite: Suite, p: Party, q: Party)
    requires Hears(suite, p, q) && Hears(suite, q, p) && Sound(suite, p) && Sound(suite, q)
    requires Reading(suite, p) && p.taken < |q.sent|
    ensures Hears(suite, Take(suite, p, q.sent[p.taken]), q)
  {
    hide Hears, Sound, Take, NextMessage;
    if p.machine.phase in {AwaitingRequest, AwaitingResponse} {
      HearsCommitment(suite, p, q);
    } else if p.machine.phase == AwaitingReveal {
      HearsReveal(suite, p, q);
    } else {
      HearsLast(suite, p, q);
    }
  }

  /** The message this phase waits for, of this attempt, and opening the commitment if it reveals. */
  predicate Awaited(suite: Suite, p: Party, m: Message) {
    && KindOf(m) == ExpectedKind(p.machine.phase, p.machine.role)
    && (m.RequestMsg? || p.machine.pairingId == Some(m.id))
    && (m.RevealMsg? ==>
          p.commitment == Some(suite.commit(p.OtherRole(), p.InitiatorId(), p.ResponderId(), m.id, m.nonce)))
  }

  lemma HonestIsAwaited(suite: Suite, p: Party, q: Party)
    requires Hears(suite, p, q) && Hears(suite, q, p) && Sound(suite, p) && Sound(suite, q)
    requires Reading(suite, p) && p.taken < |q.sent|
    ensures Awaited(suite, p, q.sent[p.taken])
  {
    hide Justified;
  }

  lemma AwaitedAdvances(suite: Suite, p: Party, m: Message)
    requires Sound(suite, p) && Reading(suite, p) && Awaited(suite, p, m)
    ensures Rank(p.machine.phase) < Rank(Take(suite, p, m).machine.phase) && Take(suite, p, m).machine.phase != Failed
  {
    hide Code, Justified, Scripted;
  }

  /** Hearing the next message of an honest peer is never an error: it advances the attempt. */
  lemma HonestReadAdvances(suite: Suite, p: Party, q: Party)
    requires Hears(suite, p, q) && Hears(suite, q, p) && Sound(suite, p) && Sound(suite, q)
    requires Reading(suite, p) && p.taken < |q.sent|
    ensures Rank(p.machine.phase) < Rank(Take(suite, p, q.sent[p.taken]).machine.phase)
    ensures Take(suite, p, q.sent[p.taken]).machine.phase != Failed
  {
    hide Sound, Hears, Reading, Awaited, Take;
    HonestIsAwaited(suite, p, q);
    AwaitedAdvances(suite, p, q.sent[p.taken]);
  }

  lemma OwnStepHears(suite: Suite, p: Party, q: Party, e: Event)
    requires Hears(suite, p, q) && Hears(suite, q, p) && Sound(suite, p) && Sound(suite, q) && Enabled(suite, p, e)
    requires e.Read? ==> p.taken < |q.sent| && e.m == q.sent[p.taken]
    ensures Hears(suite, Step(suite, p, e), q)
  {
    if e.Read? {
      HearsNext(suite, p, q);
    }
    hide Code, Take, Scripted, Justified;
  }

  lemma ActIsJoint(suite: Suite, s: Duo, m: Move)
    requires Joint(suite, s)
    ensures Joint(suite, Act(suite, s, m))
  {
    hide Sound, Hears, Step, Enabled;
    if Allowed(suite, s, m) {
      var (p, q) := if m.AtInitiator? then (s.initiator, s.responder) else (s.responder, s.initiator);
      StepIsSound(suite, p, m.e);
      StepGrows(suite, p, m.e);
      OwnStepHears(suite, p, q, m.e);
      HearsStill(suite, q, p, Step(suite, p, m.e));
    }
  }

  lemma {:induction false} EveryPlayIsJoint(suite: Suite, s: Duo, ms: seq<Move>)
    requires Joint(suite, s)
    ensures Joint(suite, Play(suite, s, ms))
    decreases |ms|
  {
    if ms != [] {
      hide Joint, Act;
      EveryPlayIsJoint(suite, s, ms[..|ms| - 1]);
      ActIsJoint(suite, Play(suite, s, ms[..|ms| - 1]), ms[|ms| - 1]);
    }
  }

  /** Both humans are shown the same code. */
  predicate SameCode(s: Duo) {
    s.initiator.code.Some? && s.responder.code.Some? ==> s.initiator.code == s.responder.code
  }

  /** Trust at one side means that both humans accepted, under one attempt identifier. */
  predicate TrustIsMutual(p: Party, q: Party) {
    && (p.trusted ==> p.machine.localAccepted == Some(true) == q.machine.localAccepted && p.machine.pairingId == q.machine.pairingId)
    && (p.machine.phase == Complete ==> p.trusted && q.trusted)
  }

  lemma JointAgrees(suite: Suite, s: Duo)
    requires Joint(suite, s)
    ensures SameCode(s) && TrustIsMutual(s.initiator, s.responder) && TrustIsMutual(s.responder, s.initiator)
  {
  }

  /** PAIRING AGREEMENT, over every run of an honest initiator and responder. */
  lemma PairingAgreement(suite: Suite, a: DeviceId, b: DeviceId, id: PairingId, nonceA: Nonce, nonceB: Nonce, ms: seq<Move>)
    ensures var s := Play(suite, StartDuo(a, b, id, nonceA, nonceB), ms);
            SameCode(s) && TrustIsMutual(s.initiator, s.responder) && TrustIsMutual(s.responder, s.initiator)
  {
    StartIsSound(suite, Initiator, a, b, id, nonceA);
    StartIsSound(suite, Responder, b, a, id, nonceB);
    EveryPlayIsJoint(suite, StartDuo(a, b, id, nonceA, nonceB), ms);
    JointAgrees(suite, Play(suite, StartDuo(a, b, id, nonceA, nonceB), ms));
  }

  lemma GrowsCompose(p: Party, q: Party, t: Party)
    requires Grows(p, q) && Grows(q, t)
    ensures Grows(p, t)
  {
  }

  lemma {:induction false} PlayGrows(suite: Suite, s: Duo, ms: seq<Move>)
    requires Joint(suite, s)
    ensures Grows(s.initiator, Play(suite, s, ms).initiator) && Grows(s.responder, Play(suite, s, ms).responder)
    decreases |ms|
  {
    if ms != [] {
      var before, m := Play(suite, s, ms[..|ms| - 1]), ms[|ms| - 1];
      PlayGrows(suite, s, ms[..|ms| - 1]);
      EveryPlayIsJoint(suite, s, ms[..|ms| - 1]);
      hide Sound, Hears, Step, Grows, Enabled, Play;
      if Allowed(suite, before, m) {
        var p, p0 := if m.AtInitiator? then before.initiator else before.responder, if m.AtInitiator? then s.initiator else s.responder;
        StepGrows(suite, p, m.e);
        GrowsCompose(p0, p, Step(suite, p, m.e));
      }
    }
  }

  /** What an honest run is about: the messages each side has sent so far, and the code each shows, are
      those of the two devices, the one attempt and the two nonces. */
  ghost predicate About(suite: Suite, s: Duo, a: DeviceId, b: DeviceId, id: PairingId, nonceA: Nonce, nonceB: Nonce) {
    var i, r, code := s.initiator, s.responder, U32Value(suite.digest(Transcript(a, b, id, nonceA, nonceB))[..4]) % 1_000_000;
    && (i.code.Some? ==> i.code.value == code) && (r.code.Some? ==> r.code.value == code)
    && (|i.sent| > 0 ==> i.sent[0] == RequestMsg(id, suite.commit(Initiator, a, b, id, nonceA)))
    && (|r.sent| > 0 ==> r.sent[0] == ResponseMsg(id, suite.commit(Responder, a, b, id, nonceB)))
    && (|i.sent| > 1 ==> i.sent[1] == RevealMsg(id, nonceA)) && (|r.sent| > 1 ==> r.sent[1] == RevealMsg(id, nonceB))
    && (|i.sent| > 2 ==> i.machine.localAccepted.Some? && i.sent[2] == DecisionMsg(id, i.machine.localAccepted.value))
    && (|r.sent| > 2 ==> r.machine.localAccepted.Some? && r.sent[2] == DecisionMsg(id, r.machine.localAccepted.value))
    && (|i.sent| > 3 ==> i.sent[3] == CompleteMsg(id) && i.trusted) && (|r.sent| > 3 ==> r.sent[3] == CompleteMsg(id) && r.trusted)
  }

  lemma JointIsAbout(suite: Suite, s: Duo, a: DeviceId, b: DeviceId, id: PairingId, nonceA: Nonce, nonceB: Nonce)
    requires Joint(suite, s) && Grows(StartParty(Initiator, a, b, id, nonceA), s.initiator)
    requires Grows(StartParty(Responder, b, a, id, nonceB), s.responder)
    ensures About(suite, s, a, b, id, nonceA, nonceB)
  {
    hide Paced;
  }

  lemma PairingIsAbout(suite: Suite, a: DeviceId, b: DeviceId, id: PairingId, nonceA: Nonce, nonceB: Nonce, ms: seq<Move>)
    ensures About(suite, Play(suite, StartDuo(a, b, id, nonceA, nonceB), ms), a, b, id, nonceA, nonceB)
  {
    hide About, Play, Sound;
    var s := StartDuo(a, b, id, nonceA, nonceB);
    StartIsSound(suite, Initiator, a, b, id, nonceA);
    StartIsSound(suite, Responder, b, a, id, nonceB);
    EveryPlayIsJoint(suite, s, ms);
    PlayGrows(suite, s, ms);
    JointIsAbout(suite, Play(suite, s, ms), a, b, id, nonceA, nonceB);
  }

  lemma ScriptIsShort(suite: Suite, p: Party)
    requires Sound(suite, p)
    ensures |p.sent| <= 4 && Progress(p) <= 11
  {
  }

  function TotalProgress(s: Duo): nat {
    Progress(s.initiator) + Progress(s.responder)
  }

  lemma ActProgresses(suite: Suite, s: Duo, m: Move)
    requires Joint(suite, s)
    ensures TotalProgress(s) <= 22
    ensures Allowed(suite, s, m) ==> TotalProgress(s) < TotalProgress(Act(suite, s, m))
  {
    hide Sound, Hears, Step, Enabled, Progress;
    ScriptIsShort(suite, s.initiator);
    ScriptIsShort(suite, s.responder);
    if Allowed(suite, s, m) {
      EveryStepProgresses(suite, if m.AtInitiator? then s.initiator else s.responder, m.e);
    }
  }

  /** A run in which every move is possible makes at most twenty-two moves. */
  lemma {:induction false} RunsAreFinite(suite: Suite, s: Duo, ms: seq<Move>)
    requires Joint(suite, s)
    requires forall i | 0 <= i < |ms| :: Allowed(suite, Play(suite, s, ms[..i]), ms[i])
    ensures |ms| + TotalProgress(s) <= TotalProgress(Play(suite, s, ms)) <= 22
    decreases |ms|
  {
    hide Joint, Allowed, Act, TotalProgress;
    if ms == [] {
      ActProgresses(suite, s, AtInitiator(Abort));
    } else {
      var before, last := ms[..|ms| - 1], ms[|ms| - 1];
      forall i | 0 <= i < |before| ensures Allowed(suite, Play(suite, s, before[..i]), before[i]) {
        assert before[..i] == ms[..i];
      }
      RunsAreFinite(suite, s, before);
      EveryPlayIsJoint(suite, s, before);
      ActProgresses(suite, Play(suite, s, before), last);
      EveryPlayIsJoint(suite, s, ms);
      ActProgresses(suite, Play(suite, s, ms), last);
    }
  }

  /** Nobody gives up, decides too late or fails to store. */
  predicate Smooth(m: Move) {
    !m.e.Abort? && (m.e.Decide? ==> m.e.inTime) && (m.e.CommitTrust? ==> m.e.stored)
  }

  /** Until one side ends the attempt, some side can always go on: the protocol cannot deadlock. */
  lemma NeverStuck(suite: Suite, s: Duo) returns (m: Move)
    requires Joint(suite, s) && !s.initiator.ended && !s.responder.ended
    ensures Allowed(suite, s, m) && Smooth(m)
  {
    hide Code, Justified;
    var i, r := s.initiator, s.responder;
    m := if Ready(suite, i, r).Some? then AtInitiator(Ready(suite, i, r).value)
         else if Ready(suite, r, i).Some? then AtResponder(Ready(suite, r, i).value) else AtInitiator(Abort);
  }

  /** What a side can do next, other than giving up. */
  function Ready(suite: Suite, p: Party, q: Party): (e: Option<Event>)
    ensures e.Some? ==> Enabled(suite, p, e.value) && (e.value.Read? ==> p.taken < |q.sent| && e.value.m == q.sent[p.taken])
  {
    if NextMessage(suite, p).Some? then Some(Write)
    else if p.ended then None
    else if p.machine.phase == AwaitingLocalDecision then Some(Decide(true, true))
    else if p.machine.phase == CommittingTrust then Some(CommitTrust(true))
    else if Reading(suite, p) && p.taken < |q.sent| then Some(Read(q.sent[p.taken]))
    else None
  }

  // ----- how an undisturbed run ends -----

  /** A side that is over completed or rejected the attempt. */
  predicate Clean(p: Party) {
    p.machine.phase != Failed && (p.ended ==> p.machine.phase in {Complete, Rejected})
  }

  lemma SmoothStepIsClean(suite: Suite, p: Party, q: Party, e: Event)
    requires Hears(suite, p, q) && Hears(suite, q, p) && Sound(suite, p) && Sound(suite, q) && Clean(p) && Enabled(suite, p, e)
    requires Smooth(AtInitiator(e)) && (e.Read? ==> p.taken < |q.sent| && e.m == q.sent[p.taken])
    ensures Clean(Step(suite, p, e))
  {
    if e.Read? {
      HonestIsAwaited(suite, p, q);
      AwaitedIsClean(suite, p, e.m);
    }
    hide Hears, Scripted, Justified, Take, Code;
  }

  lemma AwaitedIsClean(suite: Suite, p: Party, m: Message)
    requires Sound(suite, p) && Reading(suite, p) && Awaited(suite, p, m) && Clean(p)
    ensures Clean(Take(suite, p, m))
  {
    hide Code, Justified, Scripted;
  }

  lemma SmoothActIsClean(suite: Suite, s: Duo, m: Move)
    requires Joint(suite, s) && Clean(s.initiator) && Clean(s.responder) && Smooth(m)
    ensures Clean(Act(suite, s, m).initiator) && Clean(Act(suite, s, m).responder)
  {
    hide Sound, Hears, Step, Enabled, Clean;
    if Allowed(suite, s, m) {
      var (p, q) := if m.AtInitiator? then (s.initiator, s.responder) else (s.responder, s.initiator);
      SmoothStepIsClean(suite, p, q, m.e);
    }
  }

  lemma {:induction false} SmoothPlayIsClean(suite: Suite, s: Duo, ms: seq<Move>)
    requires Joint(suite, s) && Clean(s.initiator) && Clean(s.responder)
    requires forall i | 0 <= i < |ms| :: Smooth(ms[i])
    ensures Clean(Play(suite, s, ms).initiator) && Clean(Play(suite, s, ms).responder)
    decreases |ms|
  {
    if ms != [] {
      hide Joint, Act, Clean, Smooth;
      SmoothPlayIsClean(suite, s, ms[..|ms| - 1]);
      EveryPlayIsJoint(suite, s, ms[..|ms| - 1]);
      SmoothActIsClean(suite, Play(suite, s, ms[..|ms| - 1]), ms[|ms| - 1]);
    }
  }

  /** While a side is not over, one side can go on smoothly. */
  lemma GoesOn(suite: Suite, s: Duo) returns (m: Move)
    requires Joint(suite, s) && Clean(s.initiator) && Clean(s.responder) && !(s.initiator.ended && s.responder.ended)
    ensures Allowed(suite, s, m) && Smooth(m)
  {
    hide Sound, Hears, Clean, Ready;
    ReadyIsSmooth(suite, s.initiator, s.responder);
    ReadyIsSmooth(suite, s.responder, s.initiator);
    if !s.initiator.ended && !s.responder.ended {
      m := NeverStuck(suite, s);
    } else if s.responder.ended {
      OtherGoesOn(suite, s.initiator, s.responder);
      m := AtInitiator(Ready(suite, s.initiator, s.responder).value);
    } else {
      OtherGoesOn(suite, s.responder, s.initiator);
      m := AtResponder(Ready(suite, s.responder, s.initiator).value);
    }
  }

  lemma ReadyIsSmooth(suite: Suite, p: Party, q: Party)
    ensures Ready(suite, p, q).Some? ==> Smooth(AtInitiator(Ready(suite, p, q).value))
  {
  }

  lemma OtherGoesOn(suite: Suite, p: Party, q: Party)
    requires Hears(suite, p, q) && Hears(suite, q, p) && Sound(suite, p) && Sound(suite, q) && Clean(p) && Clean(q)
    requires !p.ended && q.ended
    ensures Ready(suite, p, q).Some?
  {
    hide Code;
  }

  /** When an undisturbed run can go no further, both sides are done: both trust each other if both
      humans accepted, and otherwise both rejected. */
  lemma PairingConcludes(suite: Suite, a: DeviceId, b: DeviceId, id: PairingId, nonceA: Nonce, nonceB: Nonce, ms: seq<Move>)
    requires forall i | 0 <= i < |ms| :: Smooth(ms[i])
    requires var s := Play(suite, StartDuo(a, b, id, nonceA, nonceB), ms);
             forall m: Move | Smooth(m) :: !Allowed(suite, s, m)
    ensures var s := Play(suite, StartDuo(a, b, id, nonceA, nonceB), ms);
            var i, r := s.initiator, s.responder;
            && i.machine.localAccepted.Some? && r.machine.localAccepted.Some?
            && if i.machine.localAccepted.value && r.machine.localAccepted.value
               then i.machine.phase == Complete == r.machine.phase && i.trusted && r.trusted
               else i.machine.phase == Rejected == r.machine.phase && !i.trusted && !r.trusted
  {
    var s0 := StartDuo(a, b, id, nonceA, nonceB);
    StartIsSound(suite, Initiator, a, b, id, nonceA);
    StartIsSound(suite, Responder, b, a, id, nonceB);
    EveryPlayIsJoint(suite, s0, ms);
    SmoothPlayIsClean(suite, s0, ms);
    hide Play, Allowed, Smooth;
    var s := Play(suite, s0, ms);
    if !(s.initiator.ended && s.responder.ended) {
      var m := GoesOn(suite, s);
      assert false;
    }
    BothDone(suite, s);
  }

  lemma BothDone(suite: Suite, s: Duo)
    requires Joint(suite, s) && Clean(s.initiator) && Clean(s.responder) && s.initiator.ended && s.responder.ended
    ensures var i, r := s.initiator, s.responder;
            && i.machine.localAccepted.Some? && r.machine.localAccepted.Some?
            && if i.machine.localAccepted.value && r.machine.localAccepted.value
               then i.machine.phase == Complete == r.machine.phase && i.trusted && r.trusted
               else i.machine.phase == Rejected == r.machine.phase && !i.trusted && !r.trusted
  {
    JointAgrees(suite, s);
    hide Scripted;
  }
}

/** The pairing state machine as the source keeps it: one object updated in place, each method
    proved to be the corresponding transition, leaving the object alone when it refuses. */
module PairingMachines {
  import opened Common
  import opened Pairing

  class PairingStateMachine {
    const role: Role
    var phase: Phase
    var pairingId: Option<PairingId>
    var localAccepted: Option<bool>
    var remoteAccepted: Option<bool>

    function View(): Machine
      reads this
    {
      Machine(role, phase, pairingId, localAccepted, remoteAccepted)
    }

    constructor ForInitiator(id: PairingId)
      ensures View() == StartMachine(Initiator, id)
    {
      role, phase, pairingId, localAccepted, remoteAccepted := Initiator, AwaitingResponse, Some(id), None, None;
    }

    constructor ForResponder()
      ensures forall id :: View() == StartMachine(Responder, id)
    {
      role, phase, pairingId, localAccepted, remoteAccepted := Responder, AwaitingRequest, None, None, None;
    }

    predicate Did(before: Machine, result: Result<Machine, PairingError>, refused: Option<PairingError>)
      reads this
    {
      match result
      case Ok(k) => View() == k && refused.None?
      case Err(e) => View() == before && refused == Some(e)
    }

    method ReceiveRequest(m: Message) returns (refused: Option<PairingError>, opening: Option<(PairingId, Commitment)>)
      modifies this
      ensures Did(old(View()), old(View().ReceiveRequest(m)), refused)
      ensures refused.None? ==> m.RequestMsg? && opening == Some((m.id, m.commitment))
    {
      opening := None;
      refused := RequireActive(AwaitingRequest);
      if refused.None? {
        match m
        case RequestMsg(id, commitment) =>
          pairingId, phase := Some(id), AwaitingReveal;
          opening := Some((id, commitment));
        case _ => refused := Some(UnexpectedMessage(phase, KindRequest, KindOf(m)));
      }
    }

    method ReceiveResponse(m: Message) returns (refused: Option<PairingError>, commitment: Option<Commitment>)
      modifies this
      ensures Did(old(View()), old(View().ReceiveResponse(m)), refused)
      ensures refused.None? ==> m.ResponseMsg? && commitment == Some(m.commitment)
    {
      commitment := None;
      refused := RequireActive(AwaitingResponse);
      if refused.None? {
        match m
        case ResponseMsg(id, c) =>
          refused := RequirePairingId(id);
          if refused.None? {
            phase := AwaitingReveal;
            commitment := Some(c);
          }
        case _ => refused := Some(UnexpectedMessage(phase, KindResponse, KindOf(m)));
      }
    }

    method ReceiveReveal(m: Message) returns (refused: Option<PairingError>, nonce: Option<Nonce>)
      modifies this
      ensures Did(old(View()), old(View().ReceiveReveal(m)), refused)
      ensures refused.None? ==> m.RevealMsg? && nonce == Some(m.nonce)
    {
      nonce := None;
      refused := RequireActive(AwaitingReveal);
      if refused.None? {
        match m
        case RevealMsg(id, n) =>
          refused := RequirePairingId(id);
          if refused.None? {
            phase := AwaitingLocalDecision;
            nonce := Some(n);
          }
        case _ => refused := Some(UnexpectedMessage(phase, KindReveal, KindOf(m)));
      }
    }

    method LocalDecision(accepted: bool) returns (refused: Option<PairingError>)
      modifies this
      ensures Did(old(View()), old(View().LocalDecision(accepted)), refused)
    {
      if localAccepted.Some? {
        return Some(DuplicateDecision(phase));
      }
      refused := RequireActive(AwaitingLocalDecision);
      if refused.None? {
        localAccepted, phase := Some(accepted), AwaitingRemoteDecision;
      }
    }

    method RemoteDecision(m: Message) returns (refused: Option<PairingError>, accepted: Option<bool>)
      modifies this
      ensures Did(old(View()), old(View().RemoteDecision(m)), refused)
      ensures refused.None? ==> m.DecisionMsg? && accepted == Some(m.accepted)
    {
      accepted := None;
      if remoteAccepted.Some? || phase == CommittingTrust {
        return Some(DuplicateDecision(phase)), None;
      }
      refused := RequireActive(AwaitingRemoteDecision);
      if refused.None? {
        match m
        case DecisionMsg(id, theirs) =>
          refused := RequirePairingId(id);
          if refused.None? {
            remoteAccepted, accepted := Some(theirs), Some(theirs);
            phase := if localAccepted == Some(true) && theirs then CommittingTrust else Rejected;
          }
        case CompleteMsg(_) => refused := Some(CompletionTooEarly(phase));
        case _ => refused := Some(UnexpectedMessage(phase, KindDecision, KindOf(m)));
      }
    }

    method TrustCommitted() returns (refused: Option<PairingError>)
      modifies this
      ensures Did(old(View()), old(View().TrustCommitted()), refused)
    {
      refused := RequireActive(CommittingTrust);
      if refused.None? {
        phase := AwaitingCompletion;
      }
    }

    method RemoteCompletion(m: Message) returns (refused: Option<PairingError>)
      modifies this
      ensures Did(old(View()), old(View().RemoteCompletion(m)), refused)
    {
      refused := RequireActive(AwaitingCompletion);
      if refused.None? {
        match m
        case CompleteMsg(id) =>
          refused := RequirePairingId(id);
          if refused.None? {
            phase := Complete;
          }
        case DecisionMsg(_, _) => refused := Some(DuplicateDecision(phase));
        case _ => refused := Some(UnexpectedMessage(phase, KindComplete, KindOf(m)));
      }
    }

    method Fail()
      modifies this
      ensures View() == old(View().Fail())
    {
      phase := Failed;
    }

    method RequireActive(expected: Phase) returns (refused: Option<PairingError>)
      ensures refused == View().Inactive(expected)
    {
      if phase == Complete || phase == Rejected || phase == Failed {
        return Some(AlreadyFinished(phase));
      }
      return if phase == expected then None
             else Some(UnexpectedMessage(phase, ExpectedKind(expected, role), ExpectedKind(phase, role)));
    }

    method RequirePairingId(received: PairingId) returns (refused: Option<PairingError>)
      ensures refused == if pairingId == Some(received) then None else Some(PairingIdMismatch(phase))
    {
      return if pairingId == Some(received) then None else Some(PairingIdMismatch(phase));
    }
  }
}

/** The three flows of an attempt, as the source runs them over the state machine: initiate,
    respond, and confirm. Each is proved to be a run of the party above, whatever the transport
    does and whatever arrives, so every result about runs is one about the flows. */
module PairingFlows {
  import opened Common
  import opened Pairing
  import opened PairingMachines

  /** A send that fails may or may not have put its message on the stream. */
  datatype Sending = Written | Unwritten(timedOut: bool) | WrittenThenLost(timedOut: bool)

  datatype Arrival = Arrived(m: Message) | Silent(timedOut: bool)

  // ----- the flows as runs -----

  function Sends(suite: Suite, p: Party, sending: Sending): Party {
    match sending
    case Written => Step(suite, p, Write)
    case Unwritten(_) => Step(suite, p, Abort)
    case WrittenThenLost(_) => Step(suite, Step(suite, p, Write), Abort)
  }

  function Hearing(suite: Suite, p: Party, arrival: Arrival): Party {
    Step(suite, p, if arrival.Arrived? then Read(arrival.m) else Abort)
  }

  function Offered(suite: Suite, p: Party, offered: bool): Party {
    if offered then p else Step(suite, p, Abort)
  }

  function Initiated(suite: Suite, p: Party, offered: bool, s1: Sending, a1: Arrival, s2: Sending, a2: Arrival): Party {
    Hearing(suite, Sends(suite, Hearing(suite, Sends(suite, Offered(suite, p, offered), s1), a1), s2), a2)
  }

  function Responded(suite: Suite, p: Party, offered: bool, a1: Arrival, s1: Sending, s2: Sending, a2: Arrival): Party {
    Hearing(suite, Sends(suite, Sends(suite, Hearing(suite, Offered(suite, p, offered), a1), s1), s2), a2)
  }

  function Told(suite: Suite, p: Party, accepted: bool, inTime: bool, s: Sending, a: Arrival): Party {
    Hearing(suite, Sends(suite, Step(suite, p, Decide(accepted, inTime)), s), a)
  }

  function Finished(suite: Suite, p: Party, stored: bool, s: Sending, a: Arrival): Party {
    Hearing(suite, Sends(suite, Step(suite, p, CommitTrust(stored)), s), a)
  }

  // ----- what went wrong first -----

  function SendFault(p: Party, sending: Sending): Option<PairingError> {
    match sending
    case Written => None
    case _ => Some(if sending.timedOut then Timeout(p.machine.phase) else Transport(p.machine.phase))
  }

  /** Silence, a message that is not taken, a nonce that does not open its commitment, or a rejection. */
  function HearFault(suite: Suite, p: Party, arrival: Arrival): Option<PairingError> {
    if arrival.Silent? then Some(if arrival.timedOut then Timeout(p.machine.phase) else Transport(p.machine.phase))
    else if !Waits(p.machine.phase) then None
    else
      match Hear(p.machine, p.machine.phase, arrival.m)
      case Err(e) => Some(e)
      case Ok(_) =>
        if Unopened(suite, p, arrival.m) then Some(CommitmentMismatch(AwaitingReveal))
        else if arrival.m.DecisionMsg? && !BothAccept(p, arrival.m) then
          Some(RejectedByHuman(p.machine.localAccepted == Some(true), arrival.m.accepted))
        else None
  }

  function Fault<T>(r: Result<T, PairingError>): Option<PairingError> {
    if r.Err? then Some(r.error) else None
  }

  function First(fault: Option<PairingError>, otherwise: Option<PairingError>): Option<PairingError> {
    if fault.Some? then fault else otherwise
  }

  function CapabilityFault(p: Party, offered: bool): Option<PairingError> {
    if offered then None else Some(PairingUnsupported(p.peer))
  }

  /** This side's next message, and then the other's. */
  function TurnFault(suite: Suite, p: Party, s: Sending, a: Arrival): Option<PairingError> {
    First(SendFault(p, s), HearFault(suite, Sends(suite, p, s), a))
  }

  function InitiationFault(suite: Suite, p: Party, offered: bool, s1: Sending, a1: Arrival, s2: Sending, a2: Arrival)
    : Option<PairingError>
  {
    First(CapabilityFault(p, offered),
          First(TurnFault(suite, p, s1, a1), TurnFault(suite, Hearing(suite, Sends(suite, p, s1), a1), s2, a2)))
  }

  function ResponseFault(suite: Suite, p: Party, offered: bool, a1: Arrival, s1: Sending, s2: Sending, a2: Arrival)
    : Option<PairingError>
  {
    var heard := Hearing(suite, p, a1);
    First(CapabilityFault(p, offered),
          First(HearFault(suite, p, a1), First(SendFault(heard, s1), TurnFault(suite, Sends(suite, heard, s1), s2, a2))))
  }

  function DecisionFault(suite: Suite, p: Party, accepted: bool, inTime: bool, s: Sending, a: Arrival): Option<PairingError> {
    if !inTime then Some(Timeout(AwaitingLocalDecision)) else TurnFault(suite, Step(suite, p, Decide(accepted, true)), s, a)
  }

  function CompletionFault(suite: Suite, p: Party, stored: bool, s: Sending, a: Arrival): Option<PairingError> {
    if !stored then Some(TrustNotCommitted) else TurnFault(suite, Step(suite, p, CommitTrust(true)), s, a)
  }

  /** Hearing ends the attempt exactly on a fault, unless it completes it. */
  lemma FaultEnds(suite: Suite, p: Party, arrival: Arrival)
    requires Sound(suite, p) && Reading(suite, p)
    ensures var q := Hearing(suite, p, arrival);
            (HearFault(suite, p, arrival).Some? <==> q.ended && q.machine.phase != Complete)
  {
    hide Sound, Take, Hear;
    if arrival.Arrived? {
      HowReadingEnds(suite, p, arrival.m);
    }
    hide NextMessage;
  }

  /** An attempt that is over takes no further step. */
  lemma EndedStays(suite: Suite, p: Party, e: Event)
    requires p.ended
    ensures Step(suite, p, e) == p
  {
  }

  lemma EndedIsSilent(suite: Suite, p: Party, sending: Sending, arrival: Arrival)
    requires p.ended
    ensures Sends(suite, p, sending) == p && Hearing(suite, p, arrival) == p
  {
    hide Step;
    EndedStays(suite, p, Write);
    EndedStays(suite, p, Abort);
    if arrival.Arrived? {
      EndedStays(suite, p, Read(arrival.m));
    }
  }

  lemma OverIsOver(suite: Suite, p: Party, s1: Sending, a1: Arrival, s2: Sending, a2: Arrival)
    ensures p.ended ==> Hearing(suite, Sends(suite, Hearing(suite, Sends(suite, p, s1), a1), s2), a2) == p
    ensures p.ended ==> Hearing(suite, Sends(suite, Hearing(suite, p, a1), s2), a2) == p
    ensures p.ended ==> Hearing(suite, Sends(suite, Sends(suite, p, s1), s2), a2) == p
    ensures p.ended ==> Hearing(suite, Sends(suite, p, s2), a2) == p && Hearing(suite, p, a2) == p
  {
    hide Sends, Hearing;
    if p.ended {
      EndedIsSilent(suite, p, s1, a1);
      EndedIsSilent(suite, p, s2, a2);
    }
  }

  lemma AllOver(suite: Suite, p: Party, a1: Arrival, s1: Sending, s2: Sending, a2: Arrival)
    ensures p.ended ==> Hearing(suite, Sends(suite, Sends(suite, Hearing(suite, p, a1), s1), s2), a2) == p
  {
    hide Sends, Hearing;
    if p.ended {
      EndedIsSilent(suite, p, s1, a1);
      EndedIsSilent(suite, p, s2, a2);
    }
  }

  lemma SendsIsSound(suite: Suite, p: Party, sending: Sending)
    requires Sound(suite, p)
    ensures Sound(suite, Sends(suite, p, sending))
  {
    hide Sound, Step;
    StepIsSound(suite, p, Write);
    StepIsSound(suite, p, Abort);
    StepIsSound(suite, Step(suite, p, Write), Abort);
  }

  lemma HearingIsSound(suite: Suite, p: Party, arrival: Arrival)
    requires Sound(suite, p)
    ensures Sound(suite, Hearing(suite, p, arrival))
  {
    hide Sound, Step;
    StepIsSound(suite, p, if arrival.Arrived? then Read(arrival.m) else Abort);
  }

  lemma InitiatedIsSound(suite: Suite, p: Party, offered: bool, s1: Sending, a1: Arrival, s2: Sending, a2: Arrival)
    requires Sound(suite, p)
    ensures Sound(suite, Initiated(suite, p, offered, s1, a1, s2, a2))
    ensures Sound(suite, Responded(suite, p, offered, a1, s1, s2, a2))
  {
    hide Sound, Step, Sends, Hearing;
    StepIsSound(suite, p, Abort);
    var q := Offered(suite, p, offered);
    SendsIsSound(suite, q, s1);
    HearingIsSound(suite, Sends(suite, q, s1), a1);
    SendsIsSound(suite, Hearing(suite, Sends(suite, q, s1), a1), s2);
    HearingIsSound(suite, Sends(suite, Hearing(suite, Sends(suite, q, s1), a1), s2), a2);
    HearingIsSound(suite, q, a1);
    SendsIsSound(suite, Hearing(suite, q, a1), s1);
    SendsIsSound(suite, Sends(suite, Hearing(suite, q, a1), s1), s2);
    HearingIsSound(suite, Sends(suite, Sends(suite, Hearing(suite, q, a1), s1), s2), a2);
  }

  lemma SentSoFar(suite: Suite, p: Party)
    requires Sound(suite, p) && p.machine.phase == AwaitingLocalDecision
    ensures |p.sent| == 2 && p.machine.pairingId.Some? && p.machine.localAccepted.None?
  {
  }

  lemma ConfirmedIsSound(suite: Suite, p: Party, e: Event, s: Sending, a: Arrival)
    requires Sound(suite, p)
    ensures Sound(suite, Hearing(suite, Sends(suite, Step(suite, p, e), s), a))
  {
    hide Sound, Step, Sends, Hearing;
    StepIsSound(suite, p, e);
    SendsIsSound(suite, Step(suite, p, e), s);
    HearingIsSound(suite, Sends(suite, Step(suite, p, e), s), a);
  }

  lemma StepRun(suite: Suite, p: Party, es: seq<Event>, e: Event) returns (fs: seq<Event>)
    ensures Alone(suite, p, fs) == Step(suite, Alone(suite, p, es), e)
  {
    fs := es + [e];
    assert fs[..|fs| - 1] == es;
  }

  lemma SendsRun(suite: Suite, p: Party, es: seq<Event>, s: Sending) returns (fs: seq<Event>)
    ensures Alone(suite, p, fs) == Sends(suite, Alone(suite, p, es), s)
  {
    hide Alone, Step;
    fs := StepRun(suite, p, es, if s.Unwritten? then Abort else Write);
    if s.WrittenThenLost? {
      fs := StepRun(suite, p, fs, Abort);
    }
  }

  lemma HearingRun(suite: Suite, p: Party, es: seq<Event>, a: Arrival) returns (fs: seq<Event>)
    ensures Alone(suite, p, fs) == Hearing(suite, Alone(suite, p, es), a)
  {
    hide Alone, Step;
    fs := StepRun(suite, p, es, if a.Arrived? then Read(a.m) else Abort);
  }

  lemma OfferedRun(suite: Suite, p: Party, offered: bool) returns (es: seq<Event>)
    ensures Alone(suite, p, es) == Offered(suite, p, offered)
  {
    es := [];
    if !offered {
      es := StepRun(suite, p, es, Abort);
    }
  }

  lemma OpeningRun(suite: Suite, p: Party, initiates: bool, offered: bool, s1: Sending, a1: Arrival, s2: Sending, a2: Arrival)
    returns (es: seq<Event>)
    ensures Alone(suite, p, es) == if initiates then Initiated(suite, p, offered, s1, a1, s2, a2)
                                   else Responded(suite, p, offered, a1, s1, s2, a2)
  {
    hide Alone, Step, Sends, Hearing, Offered;
    es := OfferedRun(suite, p, offered);
    if initiates {
      es := SendsRun(suite, p, es, s1);
      es := HearingRun(suite, p, es, a1);
    } else {
      es := HearingRun(suite, p, es, a1);
      es := SendsRun(suite, p, es, s1);
    }
    es := SendsRun(suite, p, es, s2);
    es := HearingRun(suite, p, es, a2);
  }

  /** Initiating or responding, and then confirming, is a run of one party. */
  lemma FlowsAreRuns(suite: Suite, p: Party, initiates: bool, offered: bool, s1: Sending, a1: Arrival, s2: Sending, a2: Arrival,
                     accepted: bool, inTime: bool, s3: Sending, a3: Arrival, stored: bool, s4: Sending, a4: Arrival)
    returns (es: seq<Event>)
    ensures var q := if initiates then Initiated(suite, p, offered, s1, a1, s2, a2)
                     else Responded(suite, p, offered, a1, s1, s2, a2);
            Alone(suite, p, es) == Finished(suite, Told(suite, q, accepted, inTime, s3, a3), stored, s4, a4)
  {
    hide Alone, Step, Sends, Hearing, Initiated, Responded;
    es := OpeningRun(suite, p, initiates, offered, s1, a1, s2, a2);
    es := StepRun(suite, p, es, Decide(accepted, inTime));
    es := SendsRun(suite, p, es, s3);
    es := HearingRun(suite, p, es, a3);
    es := StepRun(suite, p, es, CommitTrust(stored));
    es := SendsRun(suite, p, es, s4);
    es := HearingRun(suite, p, es, a4);
  }

  // ----- exactly when the flows succeed -----

  /** Nothing but a message that was written leaves the attempt going on. */
  lemma SentOrOver(suite: Suite, p: Party, s: Sending)
    requires !p.ended && NextMessage(suite, p).Some?
    ensures Sends(suite, p, s).ended <==> !s.Written?
    ensures s.Written? ==> Sends(suite, p, s) == p.(sent := p.sent + [NextMessage(suite, p).value])
  {
    hide NextMessage, Take;
  }

  /** What this arrival must be for the attempt to go on. */
  predicate Opening(suite: Suite, p: Party, a: Arrival, id: PairingId) {
    && a.Arrived? && a.m.RevealMsg? && a.m.id == id
    && p.commitment == Some(suite.commit(p.OtherRole(), p.InitiatorId(), p.ResponderId(), id, a.m.nonce))
  }

  lemma RevealsOrOver(suite: Suite, p: Party, s: Sending, a: Arrival, id: PairingId)
    requires !p.ended && p.machine.phase == AwaitingReveal && p.machine.pairingId == Some(id) && |p.sent| == 1
    ensures var q := Hearing(suite, Sends(suite, p, s), a);
            && (!q.ended <==> s.Written? && Opening(suite, p, a, id))
            && (!q.ended ==> q.machine.phase == AwaitingLocalDecision && q.code == Some(Code(suite, p.Agreed(id, a.m.nonce))))
  {
    hide Code, Sends;
    SentOrOver(suite, p, s);
    OverIsOver(suite, Sends(suite, p, s), s, a, s, a);
  }

  /** Initiating ends with a code if and only if pairing was offered, both messages were written, the
      response came, and the nonce that came opens the commitment in it; the code is that of both nonces. */
  lemma InitiationSucceeds(suite: Suite, self: DeviceId, peer: DeviceId, id: PairingId, nonce: Nonce,
                           offered: bool, s1: Sending, a1: Arrival, s2: Sending, a2: Arrival)
    ensures var q := Initiated(suite, StartParty(Initiator, self, peer, id, nonce), offered, s1, a1, s2, a2);
            && (!q.ended <==>
                  && offered && s1.Written? && s2.Written? && a1.Arrived? && a1.m.ResponseMsg? && a1.m.id == id
                  && a2.Arrived? && a2.m.RevealMsg? && a2.m.id == id
                  && a1.m.commitment == suite.commit(Responder, self, peer, id, a2.m.nonce))
            && (!q.ended ==>
                  q.machine.phase == AwaitingLocalDecision
                  && q.code == Some(Code(suite, Transcript(self, peer, id, nonce, a2.m.nonce))))
  {
    hide Code, Sends;
    var p := StartParty(Initiator, self, peer, id, nonce);
    SentOrOver(suite, p, s1);
    OverIsOver(suite, Offered(suite, p, offered), s1, a1, s2, a2);
    var q := Sends(suite, p, s1);
    OverIsOver(suite, q, s1, a1, s2, a2);
    OverIsOver(suite, Hearing(suite, q, a1), s1, a1, s2, a2);
    if !Hearing(suite, q, a1).ended {
      RevealsOrOver(suite, Hearing(suite, q, a1), s2, a2, id);
    }
  }

  /** Responding ends with a code if and only if pairing was offered, a request came, both messages were
      written, and the nonce that came opens the commitment in the request. */
  lemma ResponseSucceeds(suite: Suite, self: DeviceId, peer: DeviceId, id: PairingId, nonce: Nonce,
                         offered: bool, a1: Arrival, s1: Sending, s2: Sending, a2: Arrival)
    ensures var q := Responded(suite, StartParty(Responder, self, peer, id, nonce), offered, a1, s1, s2, a2);
            && (!q.ended <==>
                  && offered && s1.Written? && s2.Written? && a1.Arrived? && a1.m.RequestMsg?
                  && a2.Arrived? && a2.m.RevealMsg? && a2.m.id == a1.m.id
                  && a1.m.commitment == suite.commit(Initiator, peer, self, a1.m.id, a2.m.nonce))
            && (!q.ended ==>
                  q.machine.phase == AwaitingLocalDecision
                  && q.code == Some(Code(suite, Transcript(peer, self, a1.m.id, a2.m.nonce, nonce))))
  {
    hide Code, Sends;
    var p := StartParty(Responder, self, peer, id, nonce);
    AllOver(suite, Offered(suite, p, offered), a1, s1, s2, a2);
    var q := Hearing(suite, p, a1);
    OverIsOver(suite, q, s1, a1, s2, a2);
    if !q.ended {
      SentOrOver(suite, q, s1);
      OverIsOver(suite, Sends(suite, q, s1), s1, a1, s2, a2);
      if s1.Written? {
        RevealsOrOver(suite, Sends(suite, q, s1), s2, a2, a1.m.id);
      }
    }
  }

  /** The human's timely acceptance was written, and the peer's came. */
  predicate BothTold(p: Party, accepted: bool, inTime: bool, s: Sending, a: Arrival) {
    accepted && inTime && s.Written? && p.machine.pairingId.Some? && a == Arrived(DecisionMsg(p.machine.pairingId.value, true))
  }

  lemma ToldOrOver(suite: Suite, p: Party, accepted: bool, inTime: bool, s: Sending, a: Arrival)
    requires Sound(suite, p) && !p.ended && p.machine.phase == AwaitingLocalDecision
    ensures var q := Told(suite, p, accepted, inTime, s, a);
            && (!q.ended <==> BothTold(p, accepted, inTime, s, a)) && q.machine.phase != Complete && q.trusted == p.trusted
            && (!q.ended ==> q.machine.phase == CommittingTrust && |q.sent| == 3 && q.machine.pairingId == p.machine.pairingId)
            && (q.machine.phase == Rejected <==>
                  && inTime && s.Written? && a.Arrived? && a.m.DecisionMsg? && p.machine.pairingId == Some(a.m.id)
                  && !(accepted && a.m.accepted))
  {
    SentSoFar(suite, p);
    hide Sound, Code, Sends;
    var q := Step(suite, p, Decide(accepted, inTime));
    OverIsOver(suite, q, s, a, s, a);
    if inTime {
      SentOrOver(suite, q, s);
      OverIsOver(suite, Sends(suite, q, s), s, a, s, a);
    }
  }

  lemma FinishedOrOver(suite: Suite, p: Party, stored: bool, s: Sending, a: Arrival, id: PairingId)
    requires !p.ended && p.machine.phase == CommittingTrust && |p.sent| == 3 && p.machine.pairingId == Some(id)
    ensures var q := Finished(suite, p, stored, s, a);
            && (q.machine.phase == Complete <==> stored && s.Written? && a == Arrived(CompleteMsg(id)))
            && q.machine.phase != Rejected && (q.trusted <==> p.trusted || stored)
  {
    hide Code, Sends;
    var q := Step(suite, p, CommitTrust(stored));
    OverIsOver(suite, q, s, a, s, a);
    if stored {
      SentOrOver(suite, q, s);
      OverIsOver(suite, Sends(suite, q, s), s, a, s, a);
      KeepsTrust(suite, q, s);
    }
  }

  lemma KeepsTrust(suite: Suite, p: Party, s: Sending)
    ensures Sends(suite, p, s).trusted == p.trusted && Sends(suite, p, s).machine == p.machine
  {
    hide Take, NextMessage;
  }

  /** Confirming commits trust if and only if both humans' acceptances were told in time and the store
      took it, completes if and only if, besides, this side's completion was written and the peer's
      came, and is a rejection if and only if the peer's decision came and one of them was no. */
  lemma ConfirmationSucceeds(suite: Suite, p: Party, accepted: bool, inTime: bool, s1: Sending, a1: Arrival,
                             stored: bool, s2: Sending, a2: Arrival)
    requires Sound(suite, p) && !p.ended && p.machine.phase == AwaitingLocalDecision
    ensures var q := Finished(suite, Told(suite, p, accepted, inTime, s1, a1), stored, s2, a2);
            var told := BothTold(p, accepted, inTime, s1, a1);
            && (q.trusted <==> told && stored)
            && (q.machine.phase == Complete <==>
                  told && stored && s2.Written? && a2 == Arrived(CompleteMsg(p.machine.pairingId.value)))
            && (q.machine.phase == Rejected <==>
                  && inTime && s1.Written? && a1.Arrived? && a1.m.DecisionMsg? && p.machine.pairingId == Some(a1.m.id)
                  && !(accepted && a1.m.accepted))
  {
    ToldOrOver(suite, p, accepted, inTime, s1, a1);
    hide Told, Step, Sends, Hearing, Scripted, Justified;
    var q := Told(suite, p, accepted, inTime, s1, a1);
    if q.ended {
      EndedStays(suite, q, CommitTrust(stored));
      EndedIsSilent(suite, q, s2, a2);
    } else {
      FinishedOrOver(suite, q, stored, s2, a2, p.machine.pairingId.value);
    }
  }

  // ----- the flows -----

  class Attempt {
    const suite: Suite
    const self: DeviceId
    const peer: DeviceId
    const nonce: Nonce
    const machine: PairingStateMachine
    var commitment: Option<Commitment>
    var revealed: Option<Nonce>
    var code: Option<nat>
    var sent: seq<Message>
    var taken: nat
    var trusted: bool
    var ended: bool

    function View(): Party
      reads this, machine
    {
      Party(self, peer, machine.View(), nonce, commitment, revealed, code, sent, taken, trusted, ended)
    }

    constructor ForInitiator(suite: Suite, self: DeviceId, peer: DeviceId, id: PairingId, nonce: Nonce)
      ensures View() == StartParty(Initiator, self, peer, id, nonce) && this.suite == suite && fresh(machine)
    {
      this.suite, this.self, this.peer, this.nonce := suite, self, peer, nonce;
      commitment, revealed, code, sent, taken, trusted, ended := None, None, None, [], 0, false, false;
      machine := new PairingStateMachine.ForInitiator(id);
    }

    constructor ForResponder(suite: Suite, self: DeviceId, peer: DeviceId, nonce: Nonce)
      ensures forall id :: View() == StartParty(Responder, self, peer, id, nonce)
      ensures this.suite == suite && fresh(machine)
    {
      this.suite, this.self, this.peer, this.nonce := suite, self, peer, nonce;
      commitment, revealed, code, sent, taken, trusted, ended := None, None, None, [], 0, false, false;
      machine := new PairingStateMachine.ForResponder();
    }

    predicate Fresh(role: Role)
      reads this, machine
    {
      var id := if machine.pairingId.Some? then machine.pairingId.value else [];
      View() == StartParty(role, self, peer, id, nonce)
    }

    /** What initiating or responding comes to: a code that waits for the human, or the end. */
    ghost predicate Pending(r: Result<nat, PairingError>)
      reads this, machine
    {
      && Pairing.Sound(suite, View())
      && (r.Err? <==> ended)
      && (r.Ok? ==> machine.phase == AwaitingLocalDecision && code == Some(r.value))
    }

    predicate Kept(before: Party)
      reads this, machine
    {
      sent == before.sent && machine.pairingId == before.machine.pairingId
    }

    method RequireCapability(offered: bool) returns (error: Option<PairingError>)
      requires !ended
      modifies `ended
      ensures View() == Offered(suite, old(View()), offered) && (error.Some? <==> ended)
      ensures error == CapabilityFault(old(View()), offered)
    {
      if !offered {
        ended := true;
        return Some(PairingUnsupported(peer));
      }
      return None;
    }

    method SendOrClose(m: Message, sending: Sending) returns (error: Option<PairingError>)
      requires NextMessage(suite, View()) == Some(m)
      modifies `sent, `ended
      ensures View() == Sends(suite, old(View()), sending)
      ensures error == SendFault(old(View()), sending)
      ensures (error.Some? <==> ended) && (error.None? ==> View() == old(View()).(sent := old(sent) + [m]))
    {
      if !sending.Unwritten? {
        sent := sent + [m];
      }
      if sending.Written? {
        return None;
      }
      ended := true;
      return Some(if sending.timedOut then Timeout(machine.phase) else Transport(machine.phase));
    }

    method ReceiveOrClose(arrival: Arrival) returns (r: Result<Message, PairingError>)
      requires !ended
      modifies `taken, `ended
      ensures arrival.Arrived? ==> r == Ok(arrival.m) && View() == old(View()).(taken := old(taken) + 1)
      ensures arrival.Silent? ==> View() == old(View()).End()
                                  && r == Err(if arrival.timedOut then Timeout(machine.phase) else Transport(machine.phase))
    {
      match arrival
      case Arrived(m) =>
        taken := taken + 1;
        return Ok(m);
      case Silent(timedOut) =>
        ended := true;
        return Err(if timedOut then Timeout(machine.phase) else Transport(machine.phase));
    }

    method TakeRequest(arrival: Arrival) returns (r: Result<PairingId, PairingError>)
      requires Reading(suite, View()) && machine.phase == AwaitingRequest
      modifies `taken, `commitment, `ended, machine
      ensures View() == Hearing(suite, old(View()), arrival)
      ensures (r.Err? <==> ended) && Fault(r) == HearFault(suite, old(View()), arrival)
      ensures r.Ok? ==> machine.phase == AwaitingReveal && machine.pairingId == Some(r.value) && sent == old(sent)
    {
      var received := ReceiveOrClose(arrival);
      if received.Err? {
        return Err(received.error);
      }
      var refused, opening := machine.ReceiveRequest(received.value);
      if refused.Some? {
        ended := true;
        return Err(refused.value);
      }
      commitment := Some(opening.value.1);
      return Ok(opening.value.0);
    }

    method TakeResponse(arrival: Arrival) returns (error: Option<PairingError>)
      requires Reading(suite, View()) && machine.phase == AwaitingResponse
      modifies `taken, `commitment, `ended, machine
      ensures View() == Hearing(suite, old(View()), arrival)
      ensures (error.Some? <==> ended) && error == HearFault(suite, old(View()), arrival)
      ensures error.None? ==> machine.phase == AwaitingReveal && Kept(old(View()))
    {
      var received := ReceiveOrClose(arrival);
      if received.Err? {
        return Some(received.error);
      }
      var refused, theirs := machine.ReceiveResponse(received.value);
      if refused.Some? {
        ended := true;
        return refused;
      }
      commitment := theirs;
      return None;
    }

    /** The revealed nonce must open the commitment; the code is cut from the transcript. */
    method TakeReveal(arrival: Arrival) returns (r: Result<nat, PairingError>)
      requires Reading(suite, View()) && machine.phase == AwaitingReveal && machine.pairingId.Some?
      modifies `taken, `revealed, `code, `ended, machine
      ensures View() == Hearing(suite, old(View()), arrival)
      ensures (r.Err? <==> ended) && (r.Ok? ==> machine.phase == AwaitingLocalDecision && code == Some(r.value))
      ensures Fault(r) == HearFault(suite, old(View()), arrival)
    {
      var id := machine.pairingId.value;
      var received := ReceiveOrClose(arrival);
      if received.Err? {
        return Err(received.error);
      }
      var refused, theirs := machine.ReceiveReveal(received.value);
      if refused.Some? {
        ended := true;
        return Err(refused.value);
      }
      var own := if machine.role == Initiator then (Responder, self, peer) else (Initiator, peer, self);
      if commitment != Some(suite.commit(own.0, own.1, own.2, id, theirs.value)) {
        machine.Fail();
        ended := true;
        return Err(CommitmentMismatch(AwaitingReveal));
      }
      var t := if machine.role == Initiator then Transcript(self, peer, id, nonce, theirs.value)
               else Transcript(peer, self, id, theirs.value, nonce);
      revealed, code := theirs, Some(Code(suite, t));
      return Ok(code.value);
    }

    /** This side's nonce, then the other's. */
    method Exchange(s: Sending, a: Arrival) returns (r: Result<nat, PairingError>)
      requires !ended && machine.phase == AwaitingReveal && machine.pairingId.Some? && |sent| == 1
      modifies this, machine
      ensures View() == Hearing(suite, Sends(suite, old(View()), s), a)
      ensures Fault(r) == TurnFault(suite, old(View()), s, a)
      ensures (r.Err? <==> ended) && (r.Ok? ==> machine.phase == AwaitingLocalDecision && code == Some(r.value))
    {
      hide Step, Sends, Hearing, SendFault, HearFault;
      var error := SendOrClose(RevealMsg(machine.pairingId.value, nonce), s);
      OverIsOver(suite, View(), s, a, s, a);
      if error.Some? {
        return Err(error.value);
      }
      r := TakeReveal(a);
    }

    /** The initiator's commitment, and then the responder's. */
    method Request(s: Sending, a: Arrival) returns (error: Option<PairingError>)
      requires Fresh(Initiator)
      modifies this, machine
      ensures View() == Hearing(suite, Sends(suite, old(View()), s), a)
      ensures (error.Some? <==> ended) && error == TurnFault(suite, old(View()), s, a)
      ensures error.None? ==> machine.phase == AwaitingReveal && machine.pairingId.Some? && |sent| == 1
    {
      hide Step, Sends, Hearing, SendFault, HearFault;
      var id := machine.pairingId.value;
      error := SendOrClose(RequestMsg(id, suite.commit(Initiator, self, peer, id, nonce)), s);
      OverIsOver(suite, View(), s, a, s, a);
      if error.None? {
        error := TakeResponse(a);
      }
    }

    /** The responder's commitment, and then the nonces. */
    method Reply(id: PairingId, s1: Sending, s2: Sending, a2: Arrival) returns (r: Result<nat, PairingError>)
      requires !ended && machine.role == Responder && machine.phase == AwaitingReveal && machine.pairingId == Some(id) && sent == []
      modifies this, machine
      ensures View() == Hearing(suite, Sends(suite, Sends(suite, old(View()), s1), s2), a2)
      ensures Fault(r)
           == First(SendFault(old(View()), s1), TurnFault(suite, Sends(suite, old(View()), s1), s2, a2))
      ensures (r.Err? <==> ended) && (r.Ok? ==> machine.phase == AwaitingLocalDecision && code == Some(r.value))
    {
      hide Step, Sends, Hearing, SendFault, HearFault;
      var error := SendOrClose(ResponseMsg(id, suite.commit(Responder, peer, self, id, nonce)), s1);
      OverIsOver(suite, View(), s1, a2, s2, a2);
      if error.Some? {
        return Err(error.value);
      }
      r := Exchange(s2, a2);
    }

    method Decision(accepted: bool, inTime: bool) returns (error: Option<PairingError>)
      requires !ended && machine.phase == AwaitingLocalDecision
      modifies `ended, machine
      ensures View() == Step(suite, old(View()), Decide(accepted, inTime))
      ensures (error.Some? <==> ended) && machine.phase != Complete
      ensures old(machine.localAccepted).None? ==> error == if inTime then None else Some(Timeout(AwaitingLocalDecision))
      ensures error.None? ==>
        machine.phase == AwaitingRemoteDecision && machine.localAccepted == Some(accepted) && inTime && Kept(old(View()))
    {
      if !inTime {
        machine.Fail();
        ended := true;
        return Some(Timeout(AwaitingLocalDecision));
      }
      error := machine.LocalDecision(accepted);
      if error.Some? {
        ended := true;
      }
    }

    method TakeDecision(arrival: Arrival) returns (error: Option<PairingError>)
      requires Reading(suite, View()) && machine.phase == AwaitingRemoteDecision && machine.localAccepted.Some?
      modifies `taken, `ended, machine
      ensures View() == Hearing(suite, old(View()), arrival)
      ensures (error.Some? <==> ended) && machine.phase != Complete && error == HearFault(suite, old(View()), arrival)
      ensures error.None? ==> machine.phase == CommittingTrust && old(machine.localAccepted) == Some(true) && Kept(old(View()))
    {
      var received := ReceiveOrClose(arrival);
      if received.Err? {
        return Some(received.error);
      }
      var refused, theirs := machine.RemoteDecision(received.value);
      if refused.Some? {
        ended := true;
        return refused;
      }
      if machine.localAccepted != Some(true) || !theirs.value {
        ended := true;
        return Some(RejectedByHuman(machine.localAccepted.value, theirs.value));
      }
      return None;
    }

    method StoreTrust(stored: bool) returns (error: Option<PairingError>)
      requires !ended && machine.phase == CommittingTrust
      modifies `trusted, `ended, machine
      ensures View() == Step(suite, old(View()), CommitTrust(stored))
      ensures (error.Some? <==> ended) && error == if stored then None else Some(TrustNotCommitted)
      ensures machine.phase != Complete && (trusted ==> stored || old(trusted))
      ensures error.None? ==> machine.phase == AwaitingCompletion && Kept(old(View()))
    {
      if !stored {
        machine.Fail();
        ended := true;
        return Some(TrustNotCommitted);
      }
      trusted := true;
      error := machine.TrustCommitted();
      ended := error.Some?;
    }

    method TakeCompletion(arrival: Arrival) returns (error: Option<PairingError>)
      requires Reading(suite, View()) && machine.phase == AwaitingCompletion
      modifies `taken, `ended, machine
      ensures View() == Hearing(suite, old(View()), arrival)
      ensures ended && (error.None? <==> machine.phase == Complete) && error == HearFault(suite, old(View()), arrival)
    {
      var received := ReceiveOrClose(arrival);
      if received.Err? {
        return Some(received.error);
      }
      error := machine.RemoteCompletion(received.value);
      ended := true;
    }

    /** Commit, hear the other commitment, reveal, hear the other nonce: the code, or a closed
        connection. */
    method Initiate(offered: bool, s1: Sending, a1: Arrival, s2: Sending, a2: Arrival)
      returns (r: Result<nat, PairingError>)
      requires Fresh(Initiator)
      modifies this, machine
      ensures View() == Initiated(suite, old(View()), offered, s1, a1, s2, a2) && Pending(r)
      ensures Fault(r) == InitiationFault(suite, old(View()), offered, s1, a1, s2, a2)
    {
      hide Pairing.Sound, Step, Sends, Hearing, TurnFault;
      StartIsSound(suite, Initiator, self, peer, machine.pairingId.value, nonce);
      InitiatedIsSound(suite, View(), offered, s1, a1, s2, a2);
      var error := RequireCapability(offered);
      OverIsOver(suite, View(), s1, a1, s2, a2);
      if error.Some? {
        return Err(error.value);
      }
      error := Request(s1, a1);
      OverIsOver(suite, View(), s2, a2, s2, a2);
      if error.Some? {
        return Err(error.value);
      }
      r := Exchange(s2, a2);
    }

    /** Hear a commitment, commit, reveal, hear the other nonce: the code, or a closed connection. */
    method Respond(offered: bool, a1: Arrival, s1: Sending, s2: Sending, a2: Arrival)
      returns (r: Result<nat, PairingError>)
      requires Fresh(Responder)
      modifies this, machine
      ensures View() == Responded(suite, old(View()), offered, a1, s1, s2, a2) && Pending(r)
      ensures Fault(r) == ResponseFault(suite, old(View()), offered, a1, s1, s2, a2)
    {
      hide Pairing.Sound, Step, Sends, Hearing, SendFault, HearFault, TurnFault;
      StartIsSound(suite, Responder, self, peer, [], nonce);
      InitiatedIsSound(suite, View(), offered, s1, a1, s2, a2);
      var error := RequireCapability(offered);
      AllOver(suite, View(), a1, s1, s2, a2);
      if error.Some? {
        return Err(error.value);
      }
      var request := TakeRequest(a1);
      OverIsOver(suite, View(), s1, a2, s2, a2);
      if request.Err? {
        return Err(request.error);
      }
      r := Reply(request.value, s1, s2, a2);
    }

    /** The decision of the human here, and that of the human there. */
    method Agree(accepted: bool, inTime: bool, s: Sending, a: Arrival) returns (error: Option<PairingError>)
      requires !ended && machine.phase == AwaitingLocalDecision && |sent| == 2 && machine.pairingId.Some?
      modifies `sent, `taken, `ended, machine
      ensures View() == Told(suite, old(View()), accepted, inTime, s, a)
      ensures (error.Some? <==> ended) && machine.phase != Complete
      ensures old(machine.localAccepted).None? ==> error == DecisionFault(suite, old(View()), accepted, inTime, s, a)
      ensures error.None? ==> machine.phase == CommittingTrust && accepted && inTime && |sent| == 3 && machine.pairingId.Some?
    {
      hide Step, Sends, Hearing, SendFault, HearFault;
      error := Decision(accepted, inTime);
      OverIsOver(suite, View(), s, a, s, a);
      if error.Some? {
        return;
      }
      error := SendOrClose(DecisionMsg(machine.pairingId.value, accepted), s);
      OverIsOver(suite, View(), s, a, s, a);
      if error.Some? {
        return;
      }
      error := TakeDecision(a);
    }

    /** Trust is committed, completion is told and heard. */
    method Finish(stored: bool, s: Sending, a: Arrival) returns (error: Option<PairingError>)
      requires !ended && machine.phase == CommittingTrust && |sent| == 3 && machine.pairingId.Some?
      modifies this, machine
      ensures View() == Finished(suite, old(View()), stored, s, a)
      ensures ended && (error.None? <==> machine.phase == Complete) && (trusted ==> stored || old(trusted))
      ensures error == CompletionFault(suite, old(View()), stored, s, a)
    {
      hide Step, Sends, Hearing, SendFault, HearFault;
      error := StoreTrust(stored);
      OverIsOver(suite, View(), s, a, s, a);
      if error.Some? {
        return;
      }
      error := SendOrClose(CompleteMsg(machine.pairingId.value), s);
      OverIsOver(suite, View(), s, a, s, a);
      if error.Some? {
        return;
      }
      error := TakeCompletion(a);
    }

    /** An authorized connection comes back exactly when the attempt completes, and trust is
        committed only on a timely local acceptance and a stored one. */
    method Confirm(accepted: bool, inTime: bool, s1: Sending, a1: Arrival, stored: bool, s2: Sending, a2: Arrival)
      returns (error: Option<PairingError>)
      requires Pairing.Sound(suite, View()) && (ended || machine.phase == AwaitingLocalDecision)
      modifies this, machine
      ensures View() == Finished(suite, Told(suite, old(View()), accepted, inTime, s1, a1), stored, s2, a2)
      ensures Pairing.Sound(suite, View()) && ended
      ensures !old(ended) ==> (error.None? <==> machine.phase == Complete)
      ensures !old(ended) ==>
                error == First(DecisionFault(suite, old(View()), accepted, inTime, s1, a1),
                               CompletionFault(suite, Told(suite, old(View()), accepted, inTime, s1, a1), stored, s2, a2))
      ensures trusted && !old(trusted) ==> accepted && inTime && stored
    {
      hide Step, Sends, Hearing, DecisionFault, CompletionFault;
      ConfirmedIsSound(suite, View(), Decide(accepted, inTime), s1, a1);
      ConfirmedIsSound(suite, Told(suite, View(), accepted, inTime, s1, a1), CommitTrust(stored), s2, a2);
      OverIsOver(suite, View(), s1, a1, s1, a1);
      OverIsOver(suite, View(), s2, a2, s2, a2);
      if ended {
        EndedStays(suite, View(), Decide(accepted, inTime));
        EndedStays(suite, View(), CommitTrust(stored));
        return Some(AlreadyFinished(machine.phase));
      }
      SentSoFar(suite, View());
      error := Agree(accepted, inTime, s1, a1);
      OverIsOver(suite, View(), s2, a2, s2, a2);
      if error.Some? {
        EndedStays(suite, View(), CommitTrust(stored));
        return;
      }
      error := Finish(stored, s2, a2);
    }
  }
}
