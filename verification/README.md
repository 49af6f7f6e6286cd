# Rift: a verified model of the stateful core

Rift is a resident daemon that keeps authenticated connections between a person's devices, pairs
new devices, and transfers files over those connections. This project models the parts of it that
are state and sequencing, and proves what they promise over every run, interleaving or crash point.
Tasks, timers, files and streams are nondeterministic steps: a read returns any number of bytes, a
write takes any part of its data, any step may fail. BLAKE3 and the record serializer are abstract
functions; the serializer is only assumed to decode what it encoded.

| file | part of Rift |
|---|---|
| `TrustJournal.dfy`, `TrustStore.dfy` | the append-only trust journal of `rift-trust`: its bytes, commits, crashes and recovery; the store object and its paging |
| `Connectivity.dfy` | peer connectivity states and the dial scheduler of `rift-daemon` |
| `Supervisor.dfy`, `Daemon.dfy` | the supervisor: first as one transition function on values, then as the object the daemon keeps, each method proved to be the model's step |
| `Registry.dfy`, `SupervisorRuns.dfy`, `SupervisorTheorems.dfy`, `SchedulerRuns.dfy` | what every supervisor step keeps, and what follows for every run: sessions, suspension, admission, the dial schedule |
| `SupervisorLaws.dfy` | what each event does to connections, callers and registries, exactly; who holds which connection over every run; whom a step leaves alone |
| `DialConservation.dfy`, `CrossDial.dfy`, `Startup.dfy` | callers and dials; two supervisors dialling each other; seeding the scheduler from the journal |
| `SessionAdmission.dfy`, `Pairing.dfy` | admission of connections and the pairing protocol of `rift-session`: the parties, the state machine object, and the flows that drive it |
| `Transfer.dfy`, `TwoParty.dfy` | the logical transfer of `rift-transfer`, alone and as a sender and a receiver with an unreliable network between them |
| `TransferRecord.dfy`, `TransferStore.dfy` | the on-disk records, their bounded reader, and the startup scanner |
| `Streaming.dfy`, `Delivery.dfy` | the payload loops, and delivery over any number of interrupted attempts |
| `DependencyPolicy.dfy` | the dependency reachability check of `xtask` |

Pure code is modelled by functions and lemmas. Code that updates fields or runs loops is modelled by
classes and methods, each proved against a function of the old state or against the property itself.
`dafny verify dfyconfig.toml` checks everything.

The main results, one line each:

* Two devices that dial each other, with losses and redials in any order, end with the same physical
  connection, which neither ever closes (`CrossDial.CrossDialConverges`).
* Over any sends and receptions, uncoordinated and cut anywhere, what is staged is a prefix of the
  source, and all of it once verified (`Delivery.Deliver`); an attempt nothing fails in delivers it
  whole (`Delivery.Round`).
* A crash leaves every acknowledged trust commit, and of the one in flight all or nothing
  (`TrustJournal.CrashAtomicity`, `TrustJournal.EveryLifeIsConsistent`); a journal opens exactly if it
  is whole frames of allowed mutations and an incomplete rest (`TrustJournal.ReopenIsExact`).
* Every registered session is authorized now and has been since it was admitted
  (`SupervisorRuns.EveryRunIsSound`, `Admission.SessionOutlivesNoWithdrawal`).
* The daemon object, driven by any events, takes exactly runs of the model (`Daemons.Daemon.Drive`).
* No connection the daemon was brought is lost: it is closed or held by a task, and an open one a
  session task holds is that of a registered session with a trusted peer
  (`Connections.NoConnectionIsLost`, `Connections.OpenIsRegistered`).
* Every caller of a dial is told once, of an open session if there is one and refused only if there is
  none (`Effects.DialSettles`, `DialAnswers.EveryAnswerIsTrue`).
* After a local disconnect the peer is not dialled again until someone asks
  (`Suspension.DisconnectSuspendsDialling`).
* The timer's dials are spaced and starve nobody, over every run (`SchedulerRuns.StartsAreSpaced`,
  `SchedulerRuns.OvertakenAtMostOnce`).
* What a sender is told of a transfer's outcome is what the receiver decided, and it ends otherwise
  exactly if it decided for itself (`TwoParty.SenderCompleted`, `TwoParty.CompletionIsSeenExactly`);
  until then it can still complete (`TwoParty.CanStillComplete`).
* A transfer's directory passes the startup scan exactly if some run of the transfer leaves it
  (`TransferStores.ScanAcceptsRuns`), and says what that run decided (`TransferStores.EveryRunIsRecoverable`).
* Both sides of a pairing show the same code and commit trust only if both humans accepted
  (`Pairing.PairingAgreement`), and undisturbed they do exactly then (`Pairing.PairingConcludes`); the flows
  of the source are such runs (`PairingFlows.FlowsAreRuns`).

## Model

| member | source | states |
|---|---|---|
| TrustJournal.ReplayPassesJournal | crates/rift-trust/src/lib.rs:505-588 | Replaying the journal of any legal history reaches exactly the fold of that history, whatever bytes follow it |
| TrustJournal.ReplayIsExact | crates/rift-trust/src/lib.rs:505-588 | A file replays if and only if it is the header, at most 100000 whole frames with their hashes that spell valid mutations with nothing behind them, each allowed in turn, and an incomplete rest; and then to exactly their decisions, length and number |
| TrustJournal.ReplayRefuses | crates/rift-trust/src/lib.rs:505-588 | What is refused is refused for its header, or for the first frame at fault: too long, one too many, or the first thing wrong with its checksum, encoding, tail, metadata or effect, with its number and offset |
| TrustJournal.HeaderIsRead | crates/rift-trust/src/lib.rs:590-607 | The header is accepted exactly if it is the one written; a short file, other magic and another version are told apart |
| TrustJournal.TornTailStops | crates/rift-trust/src/lib.rs:505-560 | Every proper prefix of a record, cut anywhere, is recognised as incomplete and ignored |
| TrustJournal.LookFindsRecord | crates/rift-trust/src/lib.rs:520-588 | A whole record written by the encoder is found again with its own mutation and end |
| TrustJournal.ReplayOfValidPrefix | crates/rift-trust/src/lib.rs:505-588 | Replaying only the bytes a replay accepted gives the same result |
| TrustJournal.RecoveryIsIdempotent | crates/rift-trust/src/lib.rs:344-401 | Opening what a recovery left on disk yields the same store again |
| TrustJournal.ReopenIsExact | crates/rift-trust/src/lib.rs:344-401 | A file opens if and only if it is at most 16 MiB and replays; the incomplete rest is cut off, and no generation is remembered |
| TrustJournal.CommitSucceeds | crates/rift-trust/src/lib.rs:425-491 | A commit that can be written succeeds if and only if metadata, record, store and count are within bounds, the store is not poisoned, the expected generation is current and the identity is not revoked; it then decides its own identity and no other |
| TrustJournal.RefusalsInOrder | crates/rift-trust/src/lib.rs:425-455 | Each refusal occurs exactly if its reason holds and no earlier one does |
| TrustJournal.LostPoisons | crates/rift-trust/src/lib.rs:457-481 | A commit that only the file system fails keeps memory as it was, leaves part of the record or none, and nothing is committed any more |
| TrustJournal.CommitKeepsConsistent | crates/rift-trust/src/lib.rs:425-491 | Every commit, written, lost in part or rolled back, leaves memory, length, record count and disk accounted for by one legal history |
| TrustJournal.CrashAtomicity | crates/rift-trust/src/lib.rs:344-401 | For every prefix of the next record that reached disk, reopening gives exactly the decisions before that mutation or exactly those after it |
| TrustJournal.FailedCommitIsAtomic | crates/rift-trust/src/lib.rs:457-481 | After a commit that fails, rolled back or not, a restart gives exactly the history before the mutation, or exactly the history with it, the latter if and only if the whole record stayed in the file |
| TrustJournal.WholeJournalReopens | crates/rift-trust/src/lib.rs:344-401 | A journal of whole records reopens to the fold of its history |
| TrustJournal.TornJournalReopens | crates/rift-trust/src/lib.rs:379-391 | A journal with a torn last record reopens to the history before it, with the tail cut off |
| TrustJournal.MemoryIsReplayOfDisk | crates/rift-trust/src/lib.rs:425-491 | While unpoisoned, decisions, file length and record count equal the replay of the file |
| TrustJournal.CrashRecovers | crates/rift-trust/src/lib.rs:344-401 | A crash at any point, after a failed or interrupted rollback too, reopens to a consistent store whose history is the old one, or the old one with exactly the mutation that was in flight |
| TrustJournal.EveryLifeIsConsistent | crates/rift-trust/src/lib.rs:344-491 | Over every series of commits and crashes the store is the one left by a history that has every acknowledged commit in order and, at each crash, at most the one mutation that was in flight |
| TrustJournal.AcknowledgedSurvives | crates/rift-trust/src/lib.rs:344-491 | A commit that was acknowledged is in the history every later life leaves |
| TrustJournal.GenerationCountsForgets | crates/rift-trust/src/lib.rs:483-489 | The generation of an identity is exactly the number of its forgets, and never saturates because it is bounded by the record count |
| TrustJournal.RevokedUntilForgotten | crates/rift-trust/src/lib.rs:621-634 | From a successful revoke to the next successful forget the identity stays revoked, whatever else is committed |
| TrustJournal.GenerationFence | crates/rift-trust/src/lib.rs:320-329 | A pairing's trust commit succeeds only if neither a forget nor a revoke of that peer succeeded since its generation was read |
| TrustJournal.StaleExactlyAfterForget | crates/rift-trust/src/lib.rs:445-455 | The commit is refused as stale if and only if a forget succeeded in between |
| Paging.InRangeIsEnumeration | crates/rift-trust/src/lib.rs:273-311 | The reference order lists every key in range exactly once, increasing |
| Paging.NextKey | crates/rift-trust/src/lib.rs:285-296 | Finds the least key at or above a bound, or that there is none |
| TrustStores.TrustStore.PersistRecord | crates/rift-trust/src/lib.rs:695-706 | A failed append may leave any prefix of the record in the file; a failure is always the file system's |
| TrustStores.TrustStore.RollbackRecord | crates/rift-trust/src/lib.rs:745-752 | A failed truncation may leave any length between the old and the current one; a failure is always the file system's |
| TrustStores.TrustStore.Commit | crates/rift-trust/src/lib.rs:425-491 | The object's commit is the model's commit for the failure that occurred, and one is lost only if an operation of the file system failed |
| TrustStores.TrustStore.ListPage | crates/rift-trust/src/lib.rs:273-311 | Returns exactly the next entries in identity order after the cursor, with a cursor if and only if more remain; limit zero is refused |
| TrustStores.Replay | crates/rift-trust/src/lib.rs:505-588 | The offset loop returns what the recursive replay defines, every error included; what that accepts and refuses is `ReplayIsExact` and `ReplayRefuses` |
| TrustStores.ReadRecord | crates/rift-trust/src/lib.rs:536-588 | One complete frame is accepted with its mutation, or refused with the reason the model gives |
| TrustStores.OpenExisting | crates/rift-trust/src/lib.rs:344-401 | Opening returns the store the model reopens to, or its error |
| TrustStores.Enumerate | crates/rift-trust/src/lib.rs:273-311 | Following the cursor with any positive limit visits every decision exactly once in identity order and stops |
| TrustStores.PageAdvances | crates/rift-trust/src/lib.rs:297-310 | One page moves the enumeration on by exactly its own entries |
| Connectivity.RetryDelayBounds | crates/rift-daemon/src/connectivity.rs:15-21 | Every delay lies between half the cap and the cap, at least half a second and at most a minute, and the largest sample gives the cap |
| Connectivity.CapDoubles | crates/rift-daemon/src/connectivity.rs:15-21 | The cap starts at a second and doubles with every attempt, up to a minute |
| Connectivity.JitterIsShare | crates/rift-daemon/src/connectivity.rs:15-21 | The jitter is the sample's share of half the cap, rounded down, and never less for a larger sample |
| Connectivity.FailurePolicy | crates/rift-daemon/src/connectivity.rs:87-99 | Network and capacity failures are retried after the delay of one more attempt, a missing route waits, and everything else blocks the peer |
| Connectivity.LossPolicy | crates/rift-daemon/src/connectivity.rs:70-85 | A peer whose session is gone rests if it was suspended, and is otherwise due after the delay of one more attempt, or of the first one if the session had lasted thirty seconds |
| Connectivity.CommandPolicy | crates/rift-daemon/src/connectivity.rs:35-116 | Asking for a peer wakes it, due at once unless it has a session; disconnecting puts it to rest; a session makes it connected since its first connection |
| Connectivity.FlapsKeepBackingOff | crates/rift-daemon/src/connectivity.rs:61-99 | Over any series of connections each lost within thirty seconds, every loss counts towards the delay |
| Connectivity.StableConnectionResets | crates/rift-daemon/src/connectivity.rs:70-85 | A connection that lasted thirty seconds resets the delay to at most a second |
| Connectivity.PickIsUnique | crates/rift-daemon/src/connectivity.rs:150-167 | The peer taken is the only one that is earliest due with ties going to the smaller identity |
| Connectivity.PickIsEarliest | crates/rift-daemon/src/connectivity.rs:150-167 | The peer taken is due and fell due first, ties going to the smaller identity; nobody is taken before the next permitted start, and the next start is then 100 ms away |
| Connectivity.TakenExactlyAtDeadline | crates/rift-daemon/src/connectivity.rs:142-167 | A peer is taken exactly when a deadline exists and is not after now |
| Connectivity.Scheduler.Insert | crates/rift-daemon/src/connectivity.rs:131-140 | Adds a peer unless 4096 others are managed; reports whether there was room |
| Connectivity.Scheduler.Deadline | crates/rift-daemon/src/connectivity.rs:142-148 | The least due time of any peer, not before the next permitted start; none if nothing is due |
| Connectivity.Scheduler.TakeDue | crates/rift-daemon/src/connectivity.rs:150-167 | Takes exactly the peer the model picks and changes only it and the next permitted start |
| Registry.StartOutboundKeeps | crates/rift-daemon/src/lib.rs:748-899 | Starting or joining a dial keeps every registry invariant |
| Registry.SpawnOutboundKeeps | crates/rift-daemon/src/lib.rs:708-746 | So does serving a connect request, answered or left waiting |
| Registry.FireKeeps | crates/rift-daemon/src/lib.rs:545-557 | So does the timer |
| Registry.RegisterSessionKeeps | crates/rift-daemon/src/lib.rs:1378-1481 | So does registering a connection, whether it is refused, turned away, admitted or displaces another |
| Registry.RegisterPendingKeeps | crates/rift-daemon/src/lib.rs:1304-1376 | So does registering a pairing |
| Registry.IncomingKeeps | crates/rift-daemon/src/lib.rs:1184-1196 | So does an accept result, between the worker's end and its restart |
| Registry.DialDoneKeeps | crates/rift-daemon/src/lib.rs:1197-1248 | So does a dial result, late and cancelled ones included |
| Registry.PairingDoneKeeps | crates/rift-daemon/src/lib.rs:1483-1553 | So does the end of a pairing |
| Registry.SessionDoneKeeps | crates/rift-daemon/src/lib.rs:1259-1280 | So does the end of a session task, of a superseded session too |
| Registry.DisconnectKeeps | crates/rift-daemon/src/lib.rs:1039-1066 | So does a local disconnect |
| Registry.PurgeKeeps | crates/rift-daemon/src/lib.rs:1131-1180 | So does removing everything a peer had |
| SupervisorRuns.NextKeeps | crates/rift-daemon/src/lib.rs:536-612 | Every step, with pairing tasks committing trust in between, keeps all registries sound and every session authorized |
| SupervisorRuns.EveryRunIsSound | crates/rift-daemon/src/lib.rs:536-612 | In every reachable state the scheduler names a session exactly when the registry holds it, every session and pairing is run by a task of its own, bounds hold, and each session's peer is trusted under the generation it was admitted with |
| SupervisorRuns.RegistryBounds | crates/rift-daemon/src/lib.rs:1408-1434 | At most one session per device, sessions and dials within configuration, one live task per dial record, at most 1024 owned tasks, accept workers constant |
| SupervisorRuns.SessionIdsAreNeverReused | crates/rift-daemon/src/lib.rs:1563-1570 | A session identifier once allocated and gone never names a session again, over every run |
| SupervisorRuns.MutateKeeps | crates/rift-daemon/src/lib.rs:1013-1038 | Revoking and forgetting keep every remaining session authorized |
| Suspension.RunLeavesResting | crates/rift-daemon/src/connectivity.rs:61-116 | A suspended peer stays suspended through inbound sessions, losses, failures, hints and late results |
| Suspension.DisconnectSuspendsDialling | crates/rift-daemon/src/lib.rs:1039-1058 | After a disconnect, until a local connect request, a withdrawal of trust or shutdown, the timer never picks that peer and any dial to it is cancelled or a pairing |
| Admission.GenerationsGrow | crates/rift-trust/src/lib.rs:483-489 | Generations never decrease over a run of the daemon |
| Admission.SessionOutlivesNoWithdrawal | crates/rift-daemon/src/lib.rs:1378-1392 | A session registered at the end of a run, whose generation was read at its start, saw no successful revoke or forget of its peer during the run |
| SchedulerRuns.NextIsCalm | crates/rift-daemon/src/connectivity.rs:61-140 | No step of the supervisor but a timer start moves the next permitted start, and none makes a peer due before the current time |
| SchedulerRuns.StartsAreSpaced | crates/rift-daemon/src/connectivity.rs:150-167 | In every run of the supervisor with a clock that never goes back, any two dials its timer starts are at least 100 ms apart |
| SchedulerRuns.OvertakenAtMostOnce | crates/rift-daemon/src/connectivity.rs:87-167 | In every run, once the clock is past a waiting peer's due time, the timer starts any other peer ahead of it at most once |
| DialConservation.DialDoneConserves | crates/rift-daemon/src/lib.rs:1197-1248 | A dial result answers exactly the callers waiting on it; a cancelled one has none left |
| DialConservation.SpawnAdds | crates/rift-daemon/src/lib.rs:708-746 | A connect request adds exactly its own caller, answered or waiting |
| DialConservation.StopConserves | crates/rift-daemon/src/lib.rs:1591-1604 | Shutdown answers everyone and leaves nobody waiting |
| DialConservation.NextConserves | crates/rift-daemon/src/lib.rs:536-612 | Every step keeps the callers answered plus the callers waiting, counted with multiplicity |
| DialConservation.EveryCallerIsAccountedFor | crates/rift-daemon/src/lib.rs:708-944 | Over every run the callers handed in are exactly those answered plus those waiting: each is answered once or waits |
| DialConservation.WaitingOnALiveDial | crates/rift-daemon/src/lib.rs:830-899 | A waiting caller waits on an uncancelled record whose own task is alive and which holds at most sixteen |
| DialAnswers.EveryAnswerIsTrue | crates/rift-daemon/src/lib.rs:708-746 | At every step of every run answers are only added; one that names a session names a registered session with the device that very caller dialled, and one that refuses goes to a caller that wanted to pair, dialled this device itself, or dialled one with which no open session is left |
| DialAnswers.WaitersDialled | crates/rift-daemon/src/lib.rs:717-735 | In every run whoever waits on a dial record dialled that device |
| DialAnswers.KeptInboundSettlesCallers | crates/rift-daemon/src/lib.rs:1378-1481 | When an inbound connection of a lower identity is handled, it is registered exactly when trust, generation, liveness and capacity admit it; then the needless dial is cancelled and each of its callers is told of the new session, and otherwise dial and callers are left alone |
| Effects.RegisterAnswers | crates/rift-daemon/src/lib.rs:1378-1481 | A registration that succeeds names an open session with the peer; one that fails closes the connection and gives the reason: trust, generation, liveness, capacity or identifiers |
| Effects.DialSettles | crates/rift-daemon/src/lib.rs:1197-1248 | When a live dial reports, it is over, and each of its callers is told exactly once: of an open session with the device if there is one now, however it came about, and otherwise of the dial's own error; at most the session it brought is added, as an outbound one |
| Effects.CancelledDialEnds | crates/rift-daemon/src/lib.rs:1197-1209 | A cancelled dial tells nobody anything and registers nothing; the connection it brings is closed |
| Effects.PairingDialSettles | crates/rift-daemon/src/lib.rs:1210-1246 | A live dial for pairing that brings a pairable connection tells each caller of the pairing it opens, or of the reason there is none |
| Effects.PairingDialFails | crates/rift-daemon/src/lib.rs:1210-1246 | One that fails refuses each caller with its error; one that brings another kind of connection closes it and refuses them; neither registers anything |
| Effects.InboundPairing | crates/rift-daemon/src/lib.rs:1304-1376 | An inbound connection for pairing is registered with a task of its own, or closed, and nobody is told |
| Effects.ConfirmResolves | crates/rift-daemon/src/lib.rs:1076-1129 | A human decision reaches a pairing once, an acceptance only while managed peers and accepted pairings are below 4096 together; a pairing whose task no longer listens is given up |
| Effects.ConnectIsExact | crates/rift-daemon/src/lib.rs:708-899 | Whoever asks for a device with an open session is told of it; otherwise the caller waits on the one dial to it if the device is another, trusted one and there is room and a route, and is told the first thing missing if not |
| Effects.PairCommandIsExact | crates/rift-daemon/src/lib.rs:748-899 | Asking to pair starts a dial of its own if the device has no decision, no dial and no pairing and there is room and a route, and is told the first thing in its way otherwise |
| Effects.TimerIsExact | crates/rift-daemon/src/lib.rs:545-557 | The timer dials the peer it takes exactly if it is trusted, has no open session and can be dialled, and tells nobody anything |
| Effects.HintIsExact | crates/rift-daemon/src/lib.rs:681-694 | A hint wakes a peer without a route that does not rest, and does nothing else |
| Effects.FailureIsRecorded | crates/rift-daemon/src/lib.rs:924-934 | A failed dial leaves its peer with a retry, a wait for a hint or a block, by its error |
| Effects.StartFailureIsRecorded | crates/rift-daemon/src/lib.rs:717-746 | So does a dial that could not be started, for a caller or for the timer |
| Effects.WithdrawalIsExact | crates/rift-daemon/src/lib.rs:1131-1180 | A revoke or forget that reached the journal closes exactly the connections of that peer's sessions and pairings, removes exactly those and its scheduler entry, cancels its dial and tells its callers, and changes nothing of any other peer; one that did not changes nothing |
| Effects.DisconnectIsExact | crates/rift-daemon/src/lib.rs:1039-1066 | A disconnect removes that one session, closes its connection, puts the peer to rest, cancels a dial to it and tells its callers, and changes no other peer |
| Effects.SessionEndIsExact | crates/rift-daemon/src/lib.rs:1259-1280 | A session task that ends closes its connection; a session still registered is removed and its peer recorded as lost or failed, and nothing else changes |
| Effects.AcceptedIsSeated | crates/rift-daemon/src/lib.rs:1184-1196 | An accepted connection leaves an open session with its peer, or is closed because something stood against it |
| Effects.PairedIsSeated | crates/rift-daemon/src/lib.rs:1483-1553 | So does one handed over by a completed pairing; a failed pairing, or one given up meanwhile, only closes its connection |
| Effects.SupersessionIsNoLoss | crates/rift-daemon/src/lib.rs:1408-1481 | A session that replaces an open one keeps the peer's backoff and the time it has been connected since |
| Effects.PairingCommitIsFenced | crates/rift-trust/src/lib.rs:320-329 | A pairing's commit changes no registry, and trusts a peer only under the generation it read and only if the peer had no decision |
| Effects.StopIsFinal | crates/rift-daemon/src/lib.rs:1591-1630 | Stopping closes every registered connection, empties every registry and refuses every waiting caller, and nothing happens afterwards |
| Effects.ClientsAreCounted | crates/rift-daemon/src/lib.rs:555-566 | A local client is admitted exactly while clients and tasks are below their limits, and counted until it leaves |
| Connections.NextIsCustody | crates/rift-daemon/src/lib.rs:536-612 | Every step leaves each connection it is brought closed or held by a task, lets go of none it held without closing it, and closes none without a reason |
| Connections.NoConnectionIsLost | crates/rift-daemon/src/lib.rs:536-612 | In every run each connection the supervisor was brought is closed or held by a task, and a session task whose session is no longer registered holds a closed one |
| Connections.OpenIsRegistered | crates/rift-daemon/src/lib.rs:1131-1180 | So an open connection a session task holds is that of a registered session with a trusted peer |
| Locality.NextIsLocal | crates/rift-daemon/src/lib.rs:536-612 | Every step but stopping leaves sessions, pairings, dial, callers and scheduler entry of every device it is not about as they were |
| CrossDial.RegisterArrives | crates/rift-daemon/src/lib.rs:1378-1481 | With room to spare, registration does to sessions, tasks and closed connections exactly what the arrival rule says, and cancels at most the one dial |
| CrossDial.KeptArrives | crates/rift-daemon/src/lib.rs:1866-1875 | The lower-to-higher connection always takes the seat, displacing the other |
| CrossDial.OtherArrives | crates/rift-daemon/src/lib.rs:1866-1875 | Any other connection takes the seat only while the first has not arrived and no other is open, and never displaces an open one |
| CrossDial.DialStep | crates/rift-daemon/src/lib.rs:1197-1248 | A dial result, live, cancelled or failed, keeps the crossing invariant at its end and makes progress |
| CrossDial.IncomingStep | crates/rift-daemon/src/lib.rs:1184-1196 | So does an accept result |
| CrossDial.SessionEndStep | crates/rift-daemon/src/lib.rs:1259-1280 | So does the end of a session task of any other connection, for any reason |
| CrossDial.SpawnShape | crates/rift-daemon/src/lib.rs:708-746 | An automatic dial changes nothing of the crossing, or starts exactly one new dial, and that only without an open session and without a dial |
| CrossDial.TimerStep | crates/rift-daemon/src/lib.rs:545-557 | The timer keeps the crossing invariant or redials, and only the end that awaits the peer's connection ever redials |
| CrossDial.RedialStep | crates/rift-daemon/src/lib.rs:830-899 | A redial keeps the crossing invariant with one more connection under way |
| CrossDial.CrossDialConverges | crates/rift-daemon/src/lib.rs:1378-1481 | Over every interleaving of registrations, supersessions, cancellations, losses, session ends and redials at both ends, neither end ever closes the lower-to-higher connection, all but a bounded number of moves are the timer's, and when no result is outstanding and no lost session is left to end, both ends hold only that connection and redial no more |
| CrossDial.CrossingsExist | crates/rift-daemon/src/lib.rs:2339-2433 | Any two devices that trust each other come to be about to cross, over any two connections, by each dialling the other just after its start |
| Startup.ReopenedIsKeyed | crates/rift-trust/src/lib.rs:652-664 | In every replayed store a trust decision is filed under the identity it names |
| Startup.SeedPage | crates/rift-daemon/src/lib.rs:439-448 | A page inserts exactly its trusted peers other than this device, or shows there are more than 4096 |
| Startup.SeedScheduler | crates/rift-daemon/src/lib.rs:433-453 | Seeding succeeds exactly when the trusted peers other than this device number at most 4096, and then the scheduler manages exactly those, all due at once |
| Startup.StartDaemon | crates/rift-daemon/src/lib.rs:403-523 | Startup on existing journal bytes succeeds exactly when the configured counts are within bounds, the bytes reopen and the trusted peers fit, and otherwise says which did not; the daemon and its store are then a state from which every run is sound |
| Daemons.Daemon.constructor | crates/rift-daemon/src/lib.rs:500-523 | A started daemon has empty registries, counters at one and its accept workers running |
| Daemons.Daemon.RegisteredSession | crates/rift-daemon/src/lib.rs:1408-1414 | The search over the registry finds the peer's one session, if it has one |
| Daemons.Daemon.CanonicalSession | crates/rift-daemon/src/lib.rs:901-905 | The search finds the peer's one open session, if it has one |
| Daemons.Daemon.ConnectivityFailed | crates/rift-daemon/src/lib.rs:924-934 | Records a failed dial in the peer's entry and nothing else |
| Daemons.Daemon.CancelOutbound | crates/rift-daemon/src/lib.rs:936-944 | Cancels the dial and answers its callers in order, each once |
| Daemons.Daemon.StartDialTask | crates/rift-daemon/src/lib.rs:812-899 | Joins an existing dial or starts one, with every refusal of the source |
| Daemons.Daemon.StartOutbound | crates/rift-daemon/src/lib.rs:748-899 | Is the model's dial start, state and answer |
| Daemons.Daemon.SpawnOutbound | crates/rift-daemon/src/lib.rs:708-746 | Is the model's connect request, and keeps the daemon sound |
| Daemons.Daemon.Timer | crates/rift-daemon/src/lib.rs:545-557 | Is the model's timer step, and keeps the daemon sound |
| Daemons.Daemon.RegisterSession | crates/rift-daemon/src/lib.rs:1378-1481 | Is the model's registration, state and answer |
| Daemons.Daemon.SeatSession | crates/rift-daemon/src/lib.rs:1408-1481 | Is the model's choice between keeping, turning away and displacing |
| Daemons.Daemon.RegisterPending | crates/rift-daemon/src/lib.rs:1304-1376 | Is the model's pairing registration |
| Daemons.Daemon.InvalidatePeer | crates/rift-daemon/src/lib.rs:1131-1180 | Is the model's removal of a peer, which `Effects.WithdrawalIsExact` pins and `Connections.NoConnectionIsLost` follows over every run |
| Daemons.Daemon.WithdrawTrust | crates/rift-daemon/src/lib.rs:1013-1038 | Only a revoke or forget that reached the journal removes anything, and one fails to only if the file system failed |
| Daemons.Daemon.DisconnectSession | crates/rift-daemon/src/lib.rs:1039-1066 | Is the model's disconnect: suspended, lost, dial cancelled, connection closed |
| Daemons.Daemon.RememberPeer | crates/rift-daemon/src/lib.rs:681-694 | A hint resumes an unresolved peer only if it is not suspended |
| Daemons.Daemon.ConfirmPairing | crates/rift-daemon/src/lib.rs:1076-1129 | An acceptance is refused when managed peers and resolving acceptances fill the scheduler; otherwise it is recorded once |
| Daemons.Daemon.CountResolving | crates/rift-daemon/src/lib.rs:1082-1089 | Counts exactly the pairings whose acceptance is being resolved |
| Daemons.Daemon.HandleIncoming | crates/rift-daemon/src/lib.rs:1184-1196 | Is the model's accept result |
| Daemons.Daemon.Settle | crates/rift-daemon/src/lib.rs:1210-1226 | Is what the model says a finished dial comes to |
| Daemons.Daemon.TellCallers | crates/rift-daemon/src/lib.rs:1227-1246 | Is what the model tells the callers of a finished dial, which `Effects.DialSettles` pins and `DialAnswers.EveryAnswerIsTrue` follows over every run |
| Daemons.Daemon.HandleOutbound | crates/rift-daemon/src/lib.rs:1197-1248 | Is the model's dial result, and keeps the daemon sound |
| Daemons.Daemon.FinishPairing | crates/rift-daemon/src/lib.rs:1483-1553 | Is the model's end of a pairing |
| Daemons.Daemon.SessionEnded | crates/rift-daemon/src/lib.rs:1259-1280 | Is the model's end of a session task |
| Daemons.Daemon.CancelAllOutbound | crates/rift-daemon/src/lib.rs:1595-1604 | Cancels every dial and refuses every caller, in identity order |
| Daemons.Daemon.ShutdownRuntime | crates/rift-daemon/src/lib.rs:1591-1630 | Empties every registry, closes every connection it held and answers everyone |
| Daemons.Daemon.HandleTaskOutput | crates/rift-daemon/src/lib.rs:1182-1289 | Every task result, known or late, takes exactly the model's step |
| Daemons.Daemon.Handle | crates/rift-daemon/src/lib.rs:536-706 | Whatever event arrives, the object and its trust store take exactly the model's step for it and stay sound and authorized; a mutation is lost only if the file system failed |
| Daemons.Daemon.Drive | crates/rift-daemon/src/lib.rs:536-612 | Any series of events takes the object and its store through exactly a run of the model, so every theorem about runs holds of them; unless the file system failed, no mutation of the run was lost |
| SessionAdmission.AdmissionIsFenced | crates/rift-session/src/lib.rs:751-836 | A connection is admitted if and only if its purpose fits the peer's decision at both readings and no forget of the peer succeeded between the first generation reading and the fence; it is refused as revoked exactly if the reading that refuses it finds the peer revoked |
| Pairing.Code | crates/rift-protocol/src/lib.rs:355-372 | The comparison code is below one million; `CodeIsCut` and `CodeTellsApart` say which number it is |
| Pairing.CodeIsCut | crates/rift-protocol/src/lib.rs:355-372 | The code is the first four bytes of the transcript's digest as a big-endian number, cut to six digits |
| Pairing.CodeTellsApart | crates/rift-protocol/src/lib.rs:326-372 | Nothing of the transcript is left out of the code: any two transcripts get different codes under some hash |
| Pairing.OnlyAwaitedIsTaken | crates/rift-session/src/lib.rs:908-1014 | A message is taken if and only if the machine is in the phase that waits for it, it is of that phase's kind and it names this attempt; a second remote decision never is |
| Pairing.RefusalsAreNamed | crates/rift-session/src/lib.rs:908-1046 | A refusal names the phase and the first reason that holds: a second decision, a finished attempt, a call out of turn, another kind of message or another attempt |
| Pairing.OwnStepsInTurn | crates/rift-session/src/lib.rs:959-999 | This side decides once, on the code, and commits trust only when both accepted |
| Pairing.PhaseRises | crates/rift-session/src/lib.rs:883-1046 | Every successful machine operation strictly raises the phase |
| Pairing.EveryStepProgresses | crates/rift-session/src/lib.rs:310-508 | Every step of a party makes progress within a fixed bound |
| Pairing.StepIsSound | crates/rift-session/src/lib.rs:883-1046 | Whatever it is sent, a party's messages, phase, code, decisions and trust stay justified by each other |
| Pairing.HowReadingEnds | crates/rift-session/src/lib.rs:355-386 | A message that is taken fails the attempt exactly if it is a nonce that does not open its commitment, and concludes it exactly if it is the last; one that is not taken ends the attempt and leaves the phase |
| Pairing.HowOwnStepsEnd | crates/rift-session/src/lib.rs:615-710 | Of a party's other steps only a late decision and a refused trust commit fail the attempt, only an abort ends it otherwise, and only a stored commit makes the peer trusted |
| Pairing.AgainstAnyPeer | crates/rift-session/src/lib.rs:310-508 | Against any peer, a nonce is written only after both commitments are fixed, the code shown is that of both devices, the attempt, this side's nonce and a revealed nonce that opens the commitment, and trust is committed only on two acceptances of such a code |
| Pairing.HonestReadAdvances | crates/rift-session/src/lib.rs:908-1014 | An honest peer's next message is never an error |
| Pairing.PairingAgreement | crates/rift-session/src/lib.rs:615-710 | In every run of an honest initiator and responder both show the same code, trust at either side means both humans accepted the same attempt, and completion at either side means both committed trust |
| Pairing.PairingIsAbout | crates/rift-session/src/lib.rs:310-710 | In every run of two honest parties whatever either side shows, decides or commits is about these two devices, this attempt and these two nonces, and the code both show is the one of exactly that transcript |
| Pairing.RunsAreFinite | crates/rift-session/src/lib.rs:883-1046 | A run makes at most twenty-two moves |
| Pairing.NeverStuck | crates/rift-session/src/lib.rs:310-710 | Until one side ends the attempt some side can go on without a failure |
| Pairing.PairingConcludes | crates/rift-session/src/lib.rs:310-710 | An undisturbed run that has nothing left to do ends complete at both sides if both humans accepted, and rejected at both otherwise |
| PairingMachines.PairingStateMachine.ForInitiator | crates/rift-session/src/lib.rs:884-892 | The initiator starts awaiting the response under its own identifier |
| PairingMachines.PairingStateMachine.ForResponder | crates/rift-session/src/lib.rs:894-902 | The responder starts awaiting a request, with no identifier |
| PairingMachines.PairingStateMachine.ReceiveRequest | crates/rift-session/src/lib.rs:908-924 | Is the model's transition and yields the request's identifier and commitment |
| PairingMachines.PairingStateMachine.ReceiveResponse | crates/rift-session/src/lib.rs:926-942 | Is the model's transition and yields the response's commitment |
| PairingMachines.PairingStateMachine.ReceiveReveal | crates/rift-session/src/lib.rs:944-957 | Is the model's transition and yields the revealed nonce |
| PairingMachines.PairingStateMachine.LocalDecision | crates/rift-session/src/lib.rs:959-967 | Is the model's transition; a second decision is refused |
| PairingMachines.PairingStateMachine.RemoteDecision | crates/rift-session/src/lib.rs:969-993 | Is the model's transition: trust may be committed only after two acceptances; each refusal names its phase and the kinds expected and received |
| PairingMachines.PairingStateMachine.TrustCommitted | crates/rift-session/src/lib.rs:995-999 | Is the model's transition |
| PairingMachines.PairingStateMachine.RemoteCompletion | crates/rift-session/src/lib.rs:1001-1014 | Is the model's transition |
| PairingFlows.Attempt.SendOrClose | crates/rift-session/src/lib.rs:1081-1099 | A send that fails, with or without its message on the stream, closes the attempt and names its phase |
| PairingFlows.Attempt.TakeReveal | crates/rift-session/src/lib.rs:355-386 | A nonce that does not open the commitment fails the attempt; otherwise the code is that of the transcript; each failure is reported as what went wrong |
| PairingFlows.Attempt.Initiate | crates/rift-session/src/lib.rs:310-400 | Whatever the transport does and whatever arrives, initiating is a run of the initiating party, and ends with its code waiting for the human, or with the attempt closed and the first thing that went wrong |
| PairingFlows.Attempt.Respond | crates/rift-session/src/lib.rs:409-508 | So is responding |
| PairingFlows.Attempt.Confirm | crates/rift-session/src/lib.rs:615-710 | Confirming is the rest of that run; an authorized connection comes back exactly when the attempt completes, trust is committed only on a timely acceptance that was stored, and a failure is the first thing that went wrong |
| PairingFlows.InitiationSucceeds | crates/rift-session/src/lib.rs:310-400 | Initiating ends with a code if and only if pairing was offered, both messages were written, the response came and the nonce that came opens its commitment; the code is that of both nonces |
| PairingFlows.ResponseSucceeds | crates/rift-session/src/lib.rs:409-508 | So for responding, with the request and the nonce that opens its commitment |
| PairingFlows.ConfirmationSucceeds | crates/rift-session/src/lib.rs:615-710 | Confirming commits trust if and only if both acceptances were told in time and the store took it, completes if and only if completion was written and came besides, and is a rejection if and only if the peer's decision came and either was no |
| PairingFlows.FaultEnds | crates/rift-session/src/lib.rs:1101-1118 | Hearing ends the attempt exactly on a fault, unless it completes it |
| PairingFlows.FlowsAreRuns | crates/rift-session/src/lib.rs:310-710 | Initiating or responding and then confirming is one run of a party, so all that is proved of runs holds of the flows |
| Transfers.EveryRunIsWellFormed | crates/rift-transfer/src/state.rs:80-404 | In every run the owning attempt is the latest generation, states fit the direction, and identity and metadata never change |
| Transfers.OperationsApply | crates/rift-transfer/src/state.rs:126-376 | In every reachable state exactly these operations go through: each with its direction, states, offsets, attempt and statuses |
| Transfers.FaultsInOrder | crates/rift-transfer/src/state.rs:126-338 | A refused operation says why, and the first reason that holds |
| Transfers.RepliesToOffer | crates/rift-transfer/src/state.rs:172-197 | A repeated offer of the same file is answered exactly by where the transfer stands: pending, its outcome, or the durable length; other metadata conflicts |
| Transfers.PauseDropsWork | crates/rift-transfer/src/state.rs:272-284 | Pausing leaves no owner, no offer under way and no accepted offset, and leaves alone what was not in flight |
| Transfers.SupersededIsFenced | crates/rift-transfer/src/state.rs:239-364 | Once an attempt is paused, replaced or finished, nothing it reports ever changes the transfer |
| Transfers.PauseSupersedes | crates/rift-transfer/src/state.rs:272-284 | Pausing supersedes the owner |
| Transfers.StartsAreDistinct | crates/rift-transfer/src/state.rs:397-404 | No two starts of a run get the same generation, and later ones get larger |
| Transfers.OutcomeIsForever | crates/rift-transfer/src/state.rs:292-376 | An outcome never changes, nothing becomes active again, and settlement is not undone |
| Transfers.CompletedWasVerified | crates/rift-transfer/src/state.rs:154-364 | An incoming completion was accepted, then started, verified and reported under one attempt, in that order |
| Transfers.RejectedWasNeverAccepted | crates/rift-transfer/src/state.rs:330-335 | An incoming rejection was never accepted, before or after |
| LogicalTransfers.LogicalTransfer.constructor | crates/rift-transfer/src/state.rs:80-98 | An outgoing transfer starts queued, an incoming one awaiting a decision |
| LogicalTransfers.LogicalTransfer.OfferSent | crates/rift-transfer/src/state.rs:126-136 | Is the model's operation; a refusal changes nothing |
| LogicalTransfers.LogicalTransfer.AcceptReceived | crates/rift-transfer/src/state.rs:139-147 | Is the model's operation; a refusal changes nothing |
| LogicalTransfers.LogicalTransfer.AcceptancePersisted | crates/rift-transfer/src/state.rs:154-164 | Is the model's operation; a refusal changes nothing |
| LogicalTransfers.LogicalTransfer.ReplayOffer | crates/rift-transfer/src/state.rs:172-197 | Answers a repeated offer from the state it finds, which it does not change |
| LogicalTransfers.LogicalTransfer.StartSend | crates/rift-transfer/src/state.rs:200-208 | Is the model's operation and yields the new owner and the accepted offset |
| LogicalTransfers.LogicalTransfer.StartReceive | crates/rift-transfer/src/state.rs:214-236 | Is the model's operation: only a header naming this transfer, the accepted offset and exactly the rest of the file |
| LogicalTransfers.LogicalTransfer.SendFinished | crates/rift-transfer/src/state.rs:239-249 | Is the model's operation; a stale attempt changes nothing |
| LogicalTransfers.LogicalTransfer.PayloadVerified | crates/rift-transfer/src/state.rs:256-266 | Is the model's operation; a stale attempt changes nothing |
| LogicalTransfers.LogicalTransfer.Pause | crates/rift-transfer/src/state.rs:272-284 | Drops connection-bound work and names exactly the worker that owned it |
| LogicalTransfers.LogicalTransfer.TerminalPersisted | crates/rift-transfer/src/state.rs:292-338 | Is the model's operation; an existing outcome is never replaced |
| LogicalTransfers.LogicalTransfer.PeerTerminalPersisted | crates/rift-transfer/src/state.rs:346-364 | Is the model's operation; an existing outcome is never replaced |
| LogicalTransfers.LogicalTransfer.TerminalAckReceived | crates/rift-transfer/src/state.rs:367-376 | Is the model's operation |
| TwoParty.EveryNetIsHonest | crates/rift-transfer/src/state.rs:126-376 | With messages lost, duplicated, reordered and replayed, every message ever sent stays true and the two outcomes fit together |
| TwoParty.SenderCompleted | crates/rift-transfer/src/state.rs:346-364 | A sender outcome of Completed means the receiver's outcome is Completed, after acceptance and verification under one attempt |
| TwoParty.SenderRejected | crates/rift-transfer/src/state.rs:346-364 | A sender outcome of Rejected means the receiver rejected and never accepted |
| TwoParty.OutcomesArePermanent | crates/rift-transfer/src/state.rs:292-376 | However the exchange goes on, what either machine decided stays decided |
| TwoParty.SettlementIsMutual | crates/rift-transfer/src/state.rs:346-376 | One machine settles only once the other has an outcome, and payload is sent only to a receiver that accepted |
| TwoParty.EveryOutcomeIsOwnOrTold | crates/rift-transfer/src/state.rs:292-364 | In every run an outcome was either decided by that machine itself or is the one the other machine has |
| TwoParty.CompletionIsSeenExactly | crates/rift-transfer/src/state.rs:292-364 | Once the receiver has completed and the sender has an outcome, the sender's is Completed if and only if the sender never decided for itself |
| TwoParty.TakingCompletion | crates/rift-transfer/src/state.rs:346-364 | A completion message that was sent makes the sender's outcome Completed if and only if the sender has none yet, or that one |
| TwoParty.CompletionIsReached | crates/rift-transfer/src/state.rs:154-266 | From every start some run brings the receiver to completion |
| TwoParty.CanStillComplete | crates/rift-transfer/src/state.rs:126-376 | Whatever messages were lost, as long as neither side has an outcome the exchange can still go on to completion at both sides |
| TwoParty.CanStillSettle | crates/rift-transfer/src/state.rs:292-376 | Whatever happened, once a side has an outcome the exchange can still go on until both are settled |
| TwoParty.CompletionMayGoUnseen | crates/rift-transfer/src/state.rs:346-355 | The converse of completion fails: from any start a receiver can complete while the sender, having cancelled unheard, keeps its own outcome whatever it is told later |
| TransferRecords.RecordRoundTrip | crates/rift-transfer/src/record.rs:121-156 | Whatever can be encoded decodes to itself |
| TransferRecords.DecodeIsExact | crates/rift-transfer/src/record.rs:140-173 | A file decodes to a record if and only if it is the header of its length, that payload, which decodes to the record with nothing left, and their hash |
| TransferRecords.DecodeErrors | crates/rift-transfer/src/record.rs:140-173 | Each decoding error occurs exactly if its reason holds and no earlier one does |
| TransferRecords.OnlyWholeRecords | crates/rift-transfer/src/record.rs:140-156 | A record cut short anywhere, or followed by anything, is refused for its length |
| TransferRecords.PayloadLength | crates/rift-transfer/src/record.rs:158-173 | An accepted header declares between 1 and 8192 bytes |
| TransferRecords.ReadRecordBytes | crates/rift-transfer/src/record.rs:206-222 | Fills the buffer with exactly the next bytes over reads of any size, or reports the file too short |
| TransferRecords.ReadTransferRecord | crates/rift-transfer/src/record.rs:185-204 | For every content and every split into reads returns what decoding the whole file returns, errors included, and consumes at most one byte past the declared record |
| TransferStores.ScanRecord | crates/rift-transfer/src/store.rs:100-169 | The directory loop returns what the reference scan defines, every error included |
| TransferStores.ScanIsExact | crates/rift-transfer/src/store.rs:100-169 | A directory is accepted, and as what, exactly when its files are at most three, fit their names, repeat none, and hold a manifest of this transfer whose markers are bound to it, rightly attributed and consistent |
| TransferStores.FirstBadFile | crates/rift-transfer/src/store.rs:100-141 | The first file out of order decides how the scan fails, whatever follows it |
| TransferStores.WhyRefused | crates/rift-transfer/src/store.rs:142-168 | Files in order are refused for want of a manifest, for another transfer's, for a marker that does not fit it, or for markers that contradict each other, in that order |
| TransferStores.EveryRunIsMarked | crates/rift-transfer/src/state.rs:154-364 | In every run the markers written agree with the state: outcome, attribution and acceptance |
| TransferStores.MarkersAreValid | crates/rift-transfer/src/record.rs:91-114 | Markers that agree with a state pass validation and contradict nothing |
| TransferStores.EveryRunIsRecoverable | crates/rift-transfer/src/store.rs:142-168 | Whatever a run left on disk passes the scan in every listing order and says exactly what the run decided |
| TransferStores.ScanAcceptsRuns | crates/rift-transfer/src/store.rs:100-169 | A transfer's directory passes the scan if and only if some run of the transfer leaves exactly its markers |
| TransferStores.ScanTransferState | crates/rift-transfer/src/store.rs:62-98 | Succeeds exactly when there are at most 4096 directories, at most 64 of any peer, all well kept and none repeated, and then holds every one of them; otherwise the first directory out of bounds says why |
| Streaming.Progress.Observe | crates/rift-transfer/src/streaming.rs:347-353 | Reports exactly when a step has passed since the last report |
| Streaming.ValidReports | crates/rift-transfer/src/streaming.rs:338-346 | Progress reports are at most a hundred, strictly increasing, and lie between the offset and the total; less than a mebibyte or a hundredth is unreported |
| Streaming.HashPrefix | crates/rift-transfer/src/streaming.rs:140-161 | Feeds exactly the next bytes to the hash over reads of any size; unless an operation failed it succeeds exactly if the file is long enough |
| Streaming.HashSource | crates/rift-transfer/src/streaming.rs:119-138 | Unless an operation failed, yields the digest of what the pass read if and only if the source has exactly the expected length, and of the whole source if it did not change meanwhile |
| Streaming.SendPayload | crates/rift-transfer/src/streaming.rs:185-241 | The source may change between the two passes: nothing is sent unless the first pass found the offered length and digest, what is sent is what the second pass read past the offset, and success means that the prefix it skipped and the bytes it sent together have that length and digest. Unless an operation failed, an unchanging source is sent whole if and only if it is the one offered |
| Streaming.ReceivePayload | crates/rift-transfer/src/streaming.rs:252-330 | For any peer stream the old prefix is untouched, a file of another length than the offset is never written to, and what is appended is what the stream carried. Unless an operation failed, it succeeds if and only if file, offset, stream length and whole-file digest agree, and each error occurs exactly for its cause |
| Delivery.GrewIsPrefix | crates/rift-transfer/src/streaming.rs:285-312 | Whatever prefix of the sent suffix arrives extends a staged prefix of the source to a longer one |
| Delivery.SendOnce | crates/rift-transfer/src/state.rs:126-249 | An attempt starts exactly if the transfer can be offered and the offset is within the file; it sends only a part of the source starting there, under a header that says so, and all of it unless an operation failed |
| Delivery.ReceiveOnce | crates/rift-transfer/src/state.rs:154-266 | A reception starts exactly if the accepted offset is the stream's; staging stays a prefix of the source and changes only if stream, acceptance and file agree; unless an operation failed it succeeds exactly if the stream brings all the file still needs, and is then the whole source |
| Delivery.Round | crates/rift-transfer/src/state.rs:126-266 | An attempt in which both sides go by what is staged completes the transfer with the whole source staged, unless an operation failed |
| Delivery.Deliver | crates/rift-transfer/src/state.rs:139-236 | Over any number of sends and receptions in any order, coordinated or not, at any offsets, with streams late, repeated and cut and staged tails lost, staging is a prefix of the source, and equals it once the receiver is completing or completed |
| DependencyPolicies.FromMetadata | xtask/src/main.rs:330-376 | A policy is built exactly when every resolved node and dependency is a known package, and then names everything in its graph; otherwise the first unknown one is named |
| DependencyPolicies.WorkspacePackageId | xtask/src/main.rs:546-562 | Finds the one workspace package of a name; none and several are refused |
| DependencyPolicies.RejectReachable | xtask/src/main.rs:600-621 | On every finite graph, cycles included, terminates and succeeds exactly when every node reachable by one or more edges is named and not forbidden; a violation names the package asked about and a reachable forbidden one, and a package that is missing or ambiguous is refused as such |
| DependencyPolicies.PassesMeansNoneForbidden | xtask/src/main.rs:349-368 | On a policy read from metadata that is exactly the absence of a reachable forbidden name |

## Left out

- Iroh endpoints, QUIC streams, relays and address lookup: a connection is an identifier with a locally observed closed flag.
- `crates/rift-spike`, binaries, benchmarks and vector generators: superseded or plumbing.
- Local sockets, permissions, lock files, IPC schemas and framing, status and peer listings: I/O and serialization.
- Event emission, including the deduplication of connectivity events.
- The serializer and hash themselves: no claim is made that decoding accepts only canonical bytes, and collisions are not excluded.
- The identity envelope, token comparison, filename and path validation, text forms of identifiers.
- File metadata checks of the scanner (links, modes, inodes, size before reading): the model starts at the bytes read.
- Creation of a new journal file and a crash during it; the recovery theorem starts from a written header.
- Wall-clock timeouts and cancellation plumbing: a step may fail at any point instead.
- Device identities are numbers below 2^256, which order as the 32-byte strings do.
- The pairing slot semaphore is an input of the dial step, and so is the lookup of a route.
- Registration reads trust state and generation as one step, where the source awaits twice; no other supervisor step can run in between, but a pairing task's commit could.
- CrossDial.CrossDialConverges: one pair of devices at a time; the timer steps interleaved are those for this peer or for none, and nobody disconnects, revokes or dials by hand meanwhile. Free capacity is one free session, room for the peer in the scheduler, and a task slot and session identifier for each connection still to come. The kept connection itself is never lost by the network.
- Delivery.Deliver: a stream is read after it was written; how the two loops overlap in time is not modelled, only which bytes arrive.
- Pairing.PairingAgreement: the stream between honest parties is ordered and reliable until it ends; binding of the commitment is not assumed and not claimed.
- PairingFlows.Attempt.Confirm: whether the trust commit succeeds is an input; the commit itself is `TrustStores.TrustStore.Commit`.
- DialAnswers.EveryAnswerIsTrue: takes from the transport that a dial brings a connection with the device it was for. How a reply channel renders a result of another kind than it expects is not modelled.
- Effects.DialSettles: takes from the transport, besides, that the connection brought is not that of a session already registered.
- Connections.NoConnectionIsLost: takes from the pairing task that it hands over the connection it was given.
- TwoParty.EveryNetIsHonest: acknowledgement of unknown transfers by the registry is not modelled.
- Connectivity pages of the IPC interface: the same paging over another map.
