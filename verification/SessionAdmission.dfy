/** Admission of a connection by rift-session: the forget generation is read first, the trust
    decision is checked against the stated purpose, and both are read again after the exchange
    with the peer. The trust store goes on changing between the four readings. */
module SessionAdmission {
  import opened Common
  import opened TrustJournal

  datatype Purpose = AuthorizedSession | PairingOnly

  datatype Admission =
    | AsAuthorized(generation: nat)
    | AsPairable(generation: nat)
    | PeerRevoked
    | PurposeNotAllowed

  function EntryOf(s: Store, d: DeviceId): Option<Decision> {
    if d in s.decisions then Some(s.decisions[d]) else None
  }

  predicate PurposeAllowed(entry: Option<Decision>, purpose: Purpose) {
    match purpose
    case AuthorizedSession => entry.Some? && entry.value.Trusted?
    case PairingOnly => entry.None?
  }

  function PurposeError(entry: Option<Decision>): Admission {
    if entry.Some? && entry.value.Revoked? then PeerRevoked else PurposeNotAllowed
  }

  /** The final readings: the generation must be the one read first, and the decision must still
      allow the purpose. */
  function Admit(generation: nat, fenced: Store, final: Store, d: DeviceId, purpose: Purpose): Admission {
    if fenced.Generation(d) != generation then PurposeNotAllowed
    else if !PurposeAllowed(EntryOf(final, d), purpose) then PurposeError(EntryOf(final, d))
    else if purpose == AuthorizedSession then AsAuthorized(generation) else AsPairable(generation)
  }

  /** Outbound and inbound admission read the store in the same order. */
  function Admission4(first: Store, checked: Store, fenced: Store, final: Store, d: DeviceId, purpose: Purpose): Admission {
    if !PurposeAllowed(EntryOf(checked, d), purpose) then PurposeError(EntryOf(checked, d))
    else Admit(first.Generation(d), fenced, final, d, purpose)
  }

  lemma NoForgetBetween(c: Codec, s: Store, run: seq<Attempt>, d: DeviceId, i: nat, j: nat, k: nat)
    requires i <= k < j <= |run| && Forgets(c, s, run, d, i) == Forgets(c, s, run, d, j)
    requires run[k].m == Forget(d)
    ensures !Succeeds(c, s, run, k)
  {
    ForgetsGrow(c, s, run, d, i, k);
    ForgetsGrow(c, s, run, d, k + 1, j);
    hide After, Succeeds;
  }

  lemma {:induction false} UnforgottenIsSame(c: Codec, s: Store, run: seq<Attempt>, d: DeviceId, i: nat, j: nat)
    requires i <= j <= |run| && Unforgotten(c, s, run, d, i, j)
    ensures Forgets(c, s, run, d, i) == Forgets(c, s, run, d, j)
    decreases j
  {
    hide After, Succeeds;
    if i < j {
      UnforgottenIsSame(c, s, run, d, i, j - 1);
    }
  }

  /** No forget of the peer succeeded between two readings. */
  ghost predicate Unforgotten(c: Codec, s: Store, run: seq<Attempt>, d: DeviceId, i: nat, j: nat)
    requires i <= j <= |run|
  {
    forall k | i <= k < j && run[k].m == Forget(d) :: !Succeeds(c, s, run, k)
  }

  /** A connection is admitted if and only if its purpose fits the peer's decision, now and at the
      last reading, and no forget of the peer succeeded between the first reading and the fence: an
      authorized one finds its peer trusted both times, a pairable one finds no decision at all. It
      is refused as revoked exactly if the reading that refuses it finds the peer revoked. */
  lemma AdmissionIsFenced(c: Codec, s: Store, run: seq<Attempt>, d: DeviceId, purpose: Purpose,
                          first: nat, checked: nat, fenced: nat, final: nat)
    requires s.GenerationsBounded() && s.recordCount <= MAX_RECORDS
    requires first <= checked <= fenced <= final <= |run|
    ensures var a := Admission4(After(c, s, run, first), After(c, s, run, checked),
                                After(c, s, run, fenced), After(c, s, run, final), d, purpose);
            var was, now := After(c, s, run, checked), After(c, s, run, final);
            var fits := if purpose == AuthorizedSession then was.IsTrusted(d) else d !in was.decisions;
            var clear := Unforgotten(c, s, run, d, first, fenced);
            && (a.AsAuthorized? <==> purpose == AuthorizedSession && was.IsTrusted(d) && clear && now.IsTrusted(d))
            && (a.AsPairable? <==> purpose == PairingOnly && d !in was.decisions && clear && d !in now.decisions)
            && (a.PeerRevoked? <==>
                  if !fits then d in was.decisions && was.decisions[d] == Revoked
                  else clear && d in now.decisions && now.decisions[d] == Revoked)
            && (a.AsAuthorized? || a.AsPairable? ==> a.generation == s.Generation(d) + Forgets(c, s, run, d, first))
  {
    hide After, Succeeds, Forgets;
    GenerationCountsForgets(c, s, run, d, first);
    GenerationCountsForgets(c, s, run, d, fenced);
    if Forgets(c, s, run, d, first) == Forgets(c, s, run, d, fenced) {
      forall k | first <= k < fenced && run[k].m == Forget(d) ensures !Succeeds(c, s, run, k) {
        NoForgetBetween(c, s, run, d, first, fenced, k);
      }
    } else if Unforgotten(c, s, run, d, first, fenced) {
      UnforgottenIsSame(c, s, run, d, first, fenced);
    }
  }
}
