# Verified model of the MCTier signaling server

This project models the parts of the signaling server whose correctness depends on
how several critical sections fit together, and proves what they guarantee.

**The lobby and session state machine.** Connections register into lobbies, hosts
moderate, sockets close. Every change to the two shared maps happens under the
lobby write lock; around those sections lie unlocked gaps. `Registration`,
`Moderation` and `Departure` define the three critical sections as functions of the
shared `Directory`; `Server` and `Connections` write the same sections as the server
does, field by field on mutable objects, and prove that they compute those functions.
`Sessions` puts them into a transition system in which any number of connections
interleave freely: a committed registration that has not yet been welcomed, a host
action that has read the index but not yet taken the lock, a captured rotation
notice that has not yet been delivered, and a closing socket that has not yet cleaned
up are all separate states. `SessionProofs` proves one inductive invariant;
`Runs`, `Histories`, `Endings` and `Staleness` draw from it theorems about every run;
`Outcomes` says what each step hands out and where it leaves its connection,
`Capacity` is about the cap, `Views` and `Broadcasts` about what members are told.
`Progress` and `Scenarios` construct runs.

**Admission control.** `Addresses`, `Pools` and `Forwarding`: address folding,
counted pools with leases whose charge can move, and attribution of proxied clients.

**Limiters.** `PasswordFailures` (sliding window with eviction) and `Lockout` (the
password gate over any sequence of registrations); `FixedWindows`, `Limiters` and
`SubmitQuotas` (fixed windows). Each is judged by the log of everything that happened.

**Text.** `NodeAddress` (parse, normalise, registry key) and `Security` (the signed
registration text, the constant-time comparison), over the string operations in `Text`.

## Modelling choices

- A sender handle is a connection identity (`Conn`), which is what pointer equality
  tests. A session generation is an arbitrary number. Chat tokens are nonces that
  never repeat. Client and lobby ids are digests, compared only for equality. The
  password hash is an arbitrary function, a parameter of every theorem.
- A virtual address is the parsed address, which registration always stores.
- Where the server picks an arbitrary map entry (the next host, the evicted key) the
  model allows every choice.
- The lockout verdict is an arbitrary input of the transition system, which only allows
  more runs. `HandleV3` ties it to the failure table and its log; `Lockout` follows that
  table through any sequence of attempts, with the lobbies changing arbitrarily in between.
- A connection in the transition system may hang up at any time, and a committed
  registration may be abandoned at any time: this covers disconnect flags, failed
  sends, idle timeouts and the session check before dispatch, and allows more runs
  than the server has.
- The server re-checks a committed session before it sends the credentials, outside the
  lock. The transition system lets the credentials go out whether or not that check
  still holds by then, so the theorems do not depend on the gap between the two.
- `offered` holds every token handed to a connection's transport, whether or not the
  socket then accepts it.
- Fixed-window limiters read the clock afresh at each use, and the bounds hold for
  separate readings: the elapsed test and the restart of a window, and in the submission
  table also the insertion and, source by source, the retain pass.
- Unicode lower-casing is a parameter known only by the facts in `Lowercasing`;
  ASCII lower-casing is shown to meet them.
- Four things that look like laws are false and have exact conditions here. A normalised
  node address need not parse back or normalise to itself (`KeyRoundTrip`,
  `KeyIsFixedPoint`, with `DoubleBracketIsNotReread` and `LongAddressOutgrowsItsKey`).
  The epoch alone is not an exact staleness test (`EpochAloneIsInexact`). Members need not
  be within the cap (`CapCanBeExceeded`, `OnlyTheHostExceedsTheCap`). News heard out of
  lock order can mislead (`CrossedNewsMisleads`, `SwapIsHarmlessIffPeaceful`).
- News is what a step has to say, in lock order; the server sends it after releasing the
  lock, so arrival order is left open. A member's picture is its players, host, mutes, cap
  and listing; description and server node are never announced. Hearing that a player
  left also unmutes that player in the picture, as the server does. The session
  generation that joined and left messages carry is not used by the picture.
- The comment on `send_chat_token_rotation` speaks of dropping stale epochs; the code
  compares the token too. For who receives a notice this matters only at saturation: below
  it the epoch and the sender filter already decide (`EpochSufficesBelowSaturation`), and
  at saturation they do not (`TokenDecidesAtSaturation`).

## Model

| member | source | states |
|---|---|---|
| `Registration.ScreenDecided` | src/registration.rs:165-275 | which requests are malformed, and that a malformed one may be retried exactly if the protocol is right and only the address is missing or, with a proven identity, the fields are bad |
| `Registration.AdmissionDecided` | src/registration.rs:280-459 | a screened request is admitted if and only if a condition on the directory before it holds, and may be retried if and only if every check but room holds; every refusal leaves both maps as they were, although the lobby entry is inserted before the last two refusals |
| `Registration.AnswerDecided` | src/registration.rs:136-504 | which of admission, retry and disconnection any attempt gets, as conditions on the request and the directory |
| `Registration.AdmissionEffect` | src/registration.rs:378-490 | a commit writes the caller's record at its own address in a lobby whose password it gave, draws one fresh token, moves the epoch by one (or starts it at 1 with the caller as host) and captures exactly the other members |
| `Registration.AdmissionFrame` | src/registration.rs:461-490 | a commit touches one lobby and one index entry; every other member's record is intact, and so are an existing lobby's host, mutes and settings |
| `Registration.FoundingEffect` | src/registration.rs:378-396 | a new lobby is named and locked as asked, passwordless exactly without a password, unlisted, uncapped, nobody muted, its founder host and sole member |
| `Registration.AdmissionKeepsDirectory` | src/registration.rs:298-490 | admission keeps the index in step with membership, addresses distinct, size at most 64 and the other lobby rules |
| `Moderation.OnlyTheHostActs` | src/moderation.rs:87-104 | a host action changes, announces or rotates anything only if the actor's exact session is current and is the host at that moment; the connection is closed exactly when the session is stale |
| `Moderation.NewsTellsAll` | src/moderation.rs:139-301 | one host action's news, heard in order, carries the picture of players, host, mutes, cap and listing across that action |
| `Moderation.QuietModeration` | src/moderation.rs:169-288 | unless a kick lands, a host action keeps members, tokens, epochs and the index, and reaches no other lobby |
| `Moderation.KickEffect` | src/moderation.rs:112-138 | a kick removes exactly its target from lobby, mutes and index, rotates the token, keeps the settings and captures exactly those who stay |
| `Moderation.MuteCapNeverBinds` | src/moderation.rs:177-190 | the cap on muted players is never what refuses a mute |
| `Moderation.ActionsAreReversible` | src/moderation.rs:177-190 | unmuting undoes a mute, handing back undoes a transfer, up to the unmuting they imply |
| `Moderation.OptionsEffect` | src/moderation.rs:256-288 | options are taken exactly from the current host, field by field: an overlong or control-ridden description and a blank or overlong node leave the old one, the cap is at most 64, public needs passwordless |
| `Moderation.OptionsAreIndependent` | src/moderation.rs:264-286 | each of the four options changes only its own field, and repeating a change is harmless |
| `Moderation.MuteEffect` | src/moderation.rs:169-191 | a mute or unmute takes exactly when the current host asks it of a member and it would not mute the host |
| `Moderation.TransferEffect` | src/moderation.rs:211-224 | the lobby changes hands, unmuting the heir, exactly when the current host asks it for a member |
| `Moderation.KickDecided` | src/moderation.rs:112-124 | a kick lands exactly when the current host asks it of another member, and otherwise does nothing |
| `Moderation.ModerationKeepsDirectory` | src/moderation.rs:112-288 | every host action keeps the directory invariant |
| `Departure.DepartureEffect` | src/connection.rs:1707-1738 | cleanup removes exactly the leaver, destroys an emptied lobby, hands over a hostless one (unmuting the new host), rotates the token and captures those who stay |
| `Departure.PartingNewsTellsAll` | src/connection.rs:1750-1783 | the news of one departure, heard in order, carries that picture to the lobby as it then is |
| `Broadcasts.LockOrderTellsAll` | src/moderation.rs:139-301 | over every run, replaying a lobby's news in lock order from any true picture gives the true picture at every later moment of its life |
| `Broadcasts.TameDeliveryTellsAll` | src/transport.rs:195-238 | the same for news heard in any other order that keeps conflicting pieces in theirs |
| `Broadcasts.CrossedNewsMisleads` | src/moderation.rs:211-245 | a run in which a host hands over and is handed the lobby back, and hearing the second handover first leaves the wrong host |
| `Broadcasts.MissedJoinHeals` | src/registration.rs:497-504 | a join that is never announced blurs only whether that one player is in, until it is said to have left |
| `Views.SwapIsHarmlessIffPeaceful` | src/protocol.rs:442-478 | two neighbouring pieces of news may change places whatever the picture if and only if they do not conflict |
| `Views.TameOrderIsHarmless` | src/transport.rs:222-235 | any rearrangement that keeps conflicting news in order leaves the same picture |
| `Departure.DepartureKeepsDirectory` | src/connection.rs:1692-1743 | cleanup keeps the directory invariant whoever is picked as host |
| `Server.SignalingServer.CheckEntry` | src/registration.rs:281-320 | the entry-mode and duplicate-identity test, whichever lobby the scan finds |
| `Server.SignalingServer.CheckPassword` | src/registration.rs:322-376 | refused exactly when locked by the full log or the hash differs; a right password leaves its key with no failures, a wrong one with exactly one more, and another key is forgotten only by the eviction rule of a full table |
| `Server.SignalingServer.RejectPassword` | src/registration.rs:350-360 | the second lock test is never true, so every wrong password is recorded, with the table's eviction rule |
| `Server.SignalingServer.Enter` | src/registration.rs:378-490 | the in-place admission computes `Admit` |
| `Server.SignalingServer.TryEntry` | src/registration.rs:280-490 | a well-formed attempt computes `Admit` and books its finding |
| `Server.SignalingServer.HandleV3` | src/registration.rs:136-504 | a whole attempt is admitted, may be retried or is disconnected as the request, the directory and the log demand, and leaves table, log and clock as its password deserves |
| `Lockout.BookingRemembers` | src/registration.rs:322-376 | an unlocked attempt at an existing lobby wipes its key's slate exactly with the right password and adds one failure exactly with a wrong one; any other attempt leaves it |
| `Lockout.SameKeyIffSameOrigin` | src/registration.rs:322-324 | attempts count against one another exactly when they try one lobby from one IPv4 host or one IPv6 /64 |
| `Lockout.BookkeepingRefines` | src/registration.rs:322-376 | whatever an attempt finds at the gate, its bookkeeping keeps the pruned table equal to the log seen through the window |
| `Lockout.AttemptExtends` | src/registration.rs:280-376 | an attempt booked as `HandleV3` books it carries a sequence of attempts on, table test and log test agreeing |
| `Lockout.FindingsMean` | src/registration.rs:326-376 | in a sequence of attempts, a password counts as wrong or right by the lobby's hash alone, at an unlocked attempt that reaches the gate |
| `Lockout.LockoutIsExact` | src/registration.rs:326-345 | over any sequence of registrations, an attempt that reaches the lock test is locked out if and only if its key has five wrong-password refusals in the last 300 s since its last success or eviction |
| `Lockout.FiveRefusalsPerWindow` | src/state.rs:159-162 | over any sequence of registrations, no closed window of 300 s holds more than five wrong-password refusals of one key since its last success or eviction |
| `Lockout.EvictionNeedsFullTable` | src/state.rs:196-207 | a key is forgotten by eviction only while 4096 keys, itself among them, each have a refusal inside the window and another key fails |
| `Server.SignalingServer.AuthorizeHost` | src/moderation.rs:87-104 | denies all but the current host, and says which kind of denial |
| `Server.SignalingServer.KickPlayer` | src/moderation.rs:106-161 | the in-place kick computes `Moderate` |
| `Server.SignalingServer.MutePlayer` | src/moderation.rs:163-191 | the in-place mute computes `Moderate` |
| `Server.SignalingServer.TransferHost` | src/moderation.rs:206-224 | the in-place transfer computes `Moderate` |
| `Server.SignalingServer.SetLobbyOptions` | src/moderation.rs:248-288 | the in-place option change computes `Moderate` and takes options as `OptionsTaken` spells them out |
| `Server.SignalingServer.HandleModeration` | src/moderation.rs:26-85 | dispatch: no session closes, a foreign sender or a moved client is ignored, otherwise `Moderate` |
| `Server.SignalingServer.RotationRecipients` | src/transport.rs:241-268 | the recipients are exactly what the delivery step hands out: nobody if token or epoch moved on, else the targets still on the same sender |
| `Server.SignalingServer.Reassign` | src/connection.rs:1716-1731 | any remaining member may become host, unmuted, when the host left; token and epoch move on |
| `Server.SignalingServer.CleanUp` | src/connection.rs:1688-1743 | the in-place cleanup computes `Depart` for some valid successor |
| `Connections.Connection.Register` | src/connection.rs:315-357 | a committed session is stored before anything else, so the record stays tied to the connection; the loop goes on exactly when a retry is due or an unflagged commit was made; a second registration only disconnects; the failure table remembers the attempt |
| `Connections.Connection.Close` | src/connection.rs:1687-1748 | cleanup departs the stored session and no record names this sender afterwards; a stale connection changes nothing |
| `SessionProofs.StepKeepsInv` | src/connection.rs:223-357 | every step of every kind keeps the global invariant |
| `SessionProofs.DeliverKeepsInv` | src/transport.rs:248-268 | delivering or dropping a notice keeps the global invariant |
| `Outcomes.DeliveryIsExact` | src/transport.rs:248-268 | delivery hands the notice's token to exactly the captured targets while the lobby holds that token, and to nobody once it does not |
| `Outcomes.OffersAreCurrent` | src/transport.rs:253-267 | over every run, but for a connection's own welcome, only a token in force is handed out, and only to a member's connection |
| `Outcomes.WelcomeIsExact` | src/registration.rs:506-546 | the welcome hands the drawn token to the newcomer alone and leaves the rotation to the notice, if it names anyone |
| `Outcomes.SubmitOutcome` | src/connection.rs:315-357 | after an attempt the connection goes on, awaits its welcome or closes exactly as the request and the directory demand |
| `Outcomes.DecideOutcome` | src/moderation.rs:87-104 | a host action ends the connection exactly when its session is superseded in a lobby that still exists |
| `SessionProofs.MembershipStepKeepsInv` | src/state.rs:229-233 | a membership change with a fresh token keeps confinement, exactness of captured notices and coverage |
| `Runs.RunKeepsInv` | src/registration.rs:280-490 | the global invariant holds in every state of every run |
| `Runs.IndexIsMembership` | src/registration.rs:485-490 | in every reachable state the index is exactly membership, a client is in at most one lobby, and every lobby obeys its rules |
| `Runs.TokenConfinement` | src/transport.rs:248-268 | anyone to whom a lobby's current token was sent, or for whom it is queued, is a current member |
| `Runs.StalenessTestIsExact` | src/transport.rs:253-267 | a live notice reaches every captured target; a dead one carries no lobby's token |
| `Runs.SettledTokensAreExact` | src/registration.rs:497-546 | once nothing is in flight, the token has been offered to exactly the current members |
| `Runs.SenderDecides` | src/connection.rs:1699-1705 | cleanup's sender-only test agrees with the sender-and-generation test in every reachable state |
| `Runs.NoLeak` | src/connection.rs:1688-1743 | when all connections are done both maps are empty |
| `Progress.FinishingIsBounded` | src/registration.rs:497-546 | however the server welcomes, cleans up and delivers from some moment on, it takes at most two steps per busy connection and one per notice |
| `Progress.SettledIffStuck` | src/registration.rs:497-546 | nothing is in flight if and only if no such step can be taken, so the server cannot stop short of settling |
| `Progress.CanSettle` | src/registration.rs:497-546 | every reachable state has a continuation, by welcomes, cleanups and deliveries alone and within that bound, after which nothing is in flight |
| `Progress.CanFinish` | src/connection.rs:1687-1748 | any one connection can be seen through to the end, whatever its phase, without moving another |
| `Progress.CanEmpty` | src/connection.rs:1688-1743 | every reachable state has a finite continuation in which all connections are done and both maps are empty |
| `Runs.StepTouches` | src/state.rs:229-233 | a step renews token and epoch and really changes the members, or changes none of the three |
| `Histories.TokenPinsMembership` | src/transport.rs:253-257 | a lobby that holds the same token at two moments had no membership change, and never vanished, in between |
| `Histories.BirthIsAdmission` | src/registration.rs:378-396 | only an admitted registration that does not insist on joining creates a lobby, at epoch 1, with the newcomer as host |
| `Histories.DeathIsLastDeparture` | src/connection.rs:1711-1714 | only the cleanup of its very last member destroys a lobby |
| `Histories.CreationsAlternateWithDestruction` | src/registration.rs:281-297 | between two successful creations of one lobby it was destroyed: racing creators have one winner |
| `Histories.EpochCountsChanges` | src/state.rs:229-233 | within one incarnation the epoch is 1 plus the membership changes since creation, saturating |
| `Histories.LaterCommitsSeeLaterEpochs` | src/registration.rs:466-470 | epochs handed out later in an incarnation are larger, until saturation |
| `Histories.EpochRestartsButTokenDoesNot` | src/registration.rs:378-395 | two incarnations of a lobby start at the same epoch but never with the same token |
| `Staleness.CaptureMoment` | src/registration.rs:461-480 | every pending notice was captured at an earlier moment of the run, with that moment's token, epoch and members |
| `Staleness.SameEpochSameToken` | src/state.rs:229-233 | while one connection keeps its record the epoch never falls, and an equal epoch below saturation means an equal token |
| `Staleness.StaleEpochReachesNobody` | src/transport.rs:253-267 | below saturation, a pending notice whose epoch matches has no target left on its captured sender if and only if its token differs |
| `Staleness.EpochSufficesBelowSaturation` | src/transport.rs:253-267 | below saturation, delivery hands out exactly what it would without the token comparison |
| `Scenarios.EpochAloneIsInexact` | src/transport.rs:255-257 | a run in which a pending notice's epoch recurs in the re-created lobby under another token |
| `Scenarios.TokenDecidesAtSaturation` | src/transport.rs:255-257 | a run at the saturated epoch in which delivery withholds an outdated token that it would hand out without the token comparison |
| `Endings.StepRule` | src/registration.rs:461-465 | a session starts only by its own commit and ends only by replacement, by a kick, or by its own cleanup |
| `Endings.EveryCommitEndsOnce` | src/registration.rs:60-69 | a connection commits at most once, and commits equal endings plus one if it still owns a record |
| `Endings.FinishedMeansEnded` | src/connection.rs:1688-1748 | a finished connection has ended every session it committed |
| `Endings.StaleForever` | src/connection.rs:1695-1748 | a stale connection stays stale; its queued host action and cleanup change neither map, even if its lobby is re-created |
| `Endings.OnlyTheHostGoverns` | src/moderation.rs:87-104 | over every run, a lobby changed without its membership changing was changed by its current host alone |
| `Capacity.OnlyTheHostExceedsTheCap` | src/moderation.rs:264-270 | over every run, a lobby passes from within its cap to over it if and only if its current host sets a cap below its size |
| `Capacity.BornWithinCap` | src/registration.rs:378-395 | a lobby is born within its cap |
| `Capacity.AdmissionKeepsCap` | src/registration.rs:436-459 | an admitted registration never takes a lobby over its cap |
| `Capacity.CapCanBeExceeded` | src/moderation.rs:264-270 | a run in which a host of two sets the cap to one |
| `Addresses.QuotaSourceIdempotent` | src/connection_guard.rs:6-22 | folding is stable, canonical, and blind to IPv4 mapping |
| `Addresses.MappedIsSame` | src/connection_guard.rs:6-14 | both spellings of an IPv4 host are one source |
| `Addresses.SameNetworkSameQuota` | src/connection_guard.rs:16-22 | IPv6 hosts share a quota exactly when they share a /64 |
| `Addresses.CanonicalDecided` | src/connection_guard.rs:6-14 | exactly the two spellings of an IPv4 host become that host, and any other address is left as it is |
| `Addresses.SameQuotaIffSameOrigin` | src/connection_guard.rs:6-22 | two sources share a quota exactly when they are one IPv4 host or lie in one IPv6 /64 |
| `Pools.GrantDecided` | src/connection_guard.rs:46-68 | over the live leases, when a slot is granted, to whom it is charged, and which refusal comes back |
| `Pools.MoveDecided` | src/connection_guard.rs:85-118 | over the live leases, when a charge can be moved |
| `Pools.AcquireConserves` | src/connection_guard.rs:46-68 | an acquire keeps counters equal to live leases and within limits; a refusal changes nothing |
| `Pools.ReleaseConserves` | src/connection_guard.rs:70-83 | a live lease can always be returned without underflow or zero entries |
| `Pools.ResolveConserves` | src/connection_guard.rs:85-118 | moving a charge keeps the slot and every count; a failure changes nothing |
| `Pools.PoolRunConserves` | src/connection_guard.rs:46-118 | the same over every sequence of operations, and no operation can underflow |
| `Pools.PendingLimitsAre` | src/connection_guard.rs:138-148 | the pending pool has 1 to 128 slots and 1 to 16 for each source |
| `Pools.ActiveLimitsAre` | src/connection_guard.rs:149-152 | the active pool has the configured slots, at least one, and a source limit leaves one over |
| `Pools.OneSourceCannotFillActive` | src/connection_guard.rs:149-152 | with a source limit and at least two slots, no sequence of operations lets a single source hold them all |
| `Pools.DirectPeerResolvesInPlace` | src/connection_guard.rs:160-174 | the lease that the pending pool grants a direct peer resolves to itself without failing or recounting, however the counts moved meanwhile |
| `Pools.ProxiedPeerIsCharged` | src/connection_guard.rs:85-118 | a handshake through a trusted proxy holds a slot charged to nobody, and is charged to its client once that is known and below its limit |
| `Pools.Pool.TryAcquire` | src/connection_guard.rs:47-67 | the in-place acquire computes `Acquire`, grants and refuses by the live leases alone, and records the lease |
| `Pools.Lease.Drop` | src/connection_guard.rs:70-83 | the in-place drop computes `Release` |
| `Pools.Lease.ResolveSource` | src/connection_guard.rs:91-117 | the in-place move computes `Resolve` and succeeds exactly if the charge is there already or the new source is below its limit |
| `Forwarding.AttributionDecided` | src/connection_guard.rs:170-226 | a handshake is attributed to a client if and only if it comes from it: an untrusted peer itself, the client hop of one visible chain of at most 1024 bytes and 16 addresses that no real address contradicts, or the one untrusted real address |
| `Forwarding.AttributionIsSound` | src/connection_guard.rs:170-226 | an attributed client is canonical, untrusted, and the rightmost untrusted hop of its chain |
| `Forwarding.LeftHopsAreIgnored` | src/connection_guard.rs:175-198 | altering, adding or removing hops to the left of the client never changes an accepted attribution |
| `PasswordFailures.LockedIffFiveRecent` | src/state.rs:185-192 | locked exactly when the full log has five failures in the window for that key |
| `PasswordFailures.GuessesPerWindow` | src/state.rs:194-212 | a recorded log never holds more than five failures in any interval of one window |
| `PasswordFailures.PruneRefines` | src/state.rs:172-183 | pruning keeps the table equal to the log seen through the window |
| `PasswordFailures.FailureTable.Prune` | src/state.rs:172-183 | the pop-front loop over every key computes `PruneAll` |
| `PasswordFailures.FailureTable.IsLocked` | src/state.rs:185-192 | answers by the full log and changes no log |
| `PasswordFailures.FailureTable.RecordFailure` | src/state.rs:194-212 | appends one failure to its key's log, evicting only a least recently failed key and only when the table is full |
| `PasswordFailures.FailureTable.GuessBound` | src/state.rs:159-162 | at most five guesses per source and lobby in any five minutes between successes or evictions |
| `PasswordFailures.FailureTable.Clear` | src/state.rs:214-216 | forgets exactly one key |
| `FixedWindows.IntervalBound` | src/state.rs:67-79 | any interval of length T admits at most (ceil(T/W)+1) times the allowance |
| `FixedWindows.OneWidthBound` | src/state.rs:144-156 | any interval of one window admits at most twice the allowance |
| `Limiters.MessageRateLimiter.Allow` | src/state.rs:144-156 | allows exactly when the window is over or unspent, and logs exactly what it allows |
| `Limiters.MessageRateLimiter.TenSecondBound` | src/config.rs:35-36 | at most 240 messages in any ten seconds |
| `Limiters.OutboundBudget.Allow` | src/state.rs:100-117 | allows exactly when frames and bytes both have room, and logs exactly what it allows at the last reading taken |
| `Limiters.OutboundBudget.SecondsBound` | src/config.rs:37-39 | frames and bytes over any n seconds are at most n+1 allowances |
| `SubmitQuotas.ForgettingIsInvisible` | src/community_nodes.rs:613-629 | over any run of submissions, whatever each clock reading, a table that never forgets makes the same decisions at readings it could have taken during those submissions |
| `SubmitQuotas.SubmitDecided` | src/community_nodes.rs:613-629 | a submission is turned away exactly when its source is forgotten and 8192 others are not, and otherwise allowed exactly when its window is over or holds fewer than eight |
| `SubmitQuotas.SubmitQuotaTable.Submit` | src/community_nodes.rs:613-629 | the in-place table decides as `SubmitStep` and logs exactly the allowed submission |
| `SubmitQuotas.SubmitQuotaTable.Keep` | src/community_nodes.rs:615-618 | the retain loop computes `Prune` |
| `SubmitQuotas.SubmitQuotaTable.TenMinuteBound` | src/config.rs:40-41 | at most 16 submissions per source in any ten minutes, forgotten or not |
| `NodeAddress.WrittenAddressMeans` | src/community_nodes.rs:45-124 | a clean address with a supported scheme, a bare or bracketed host and an optional port and path is accepted as the lower-cased scheme and host, the port written or usual for the scheme, and the path; port 0 is refused |
| `NodeAddress.RefusedOnSight` | src/community_nodes.rs:89-106 | when an address is refused as empty, too long, ill-charactered or without a scheme |
| `NodeAddress.OtherSchemesAreRefused` | src/community_nodes.rs:100-106 | a clean address is refused for its scheme exactly when that is none of tcp, udp, ws and wss, whatever the case |
| `NodeAddress.KeyRoundTrip` | src/community_nodes.rs:45-124 | a key parses back to the lower-cased host and port if and only if the host is rereadable |
| `NodeAddress.KeyIsFixedPoint` | src/community_nodes.rs:89-124 | normalising a key is the identity if and only if its host is rereadable and it fits 128 bytes |
| `NodeAddress.SameKeyIffSameNode` | src/community_nodes.rs:85-124 | two addresses share a key if and only if scheme and host agree up to case and port and path agree |
| `NodeAddress.DoubleBracketIsNotReread` | src/community_nodes.rs:61-72 | a concrete accepted address whose key does not read back |
| `NodeAddress.LongAddressOutgrowsItsKey` | src/community_nodes.rs:92-124 | a concrete accepted address of 128 bytes whose key is too long to be accepted |
| `Text.DecimalRoundTrip` | src/community_nodes.rs:67-70 | a printed port parses to itself |
| `Text.ParseU16Decided` | src/community_nodes.rs:54-70 | exactly the texts of an optional plus sign, leading zeros and a number of at most 65535 are ports |
| `Security.SignedLines` | src/security.rs:52-62 | the signed text line by line: header, protocol version, challenge, the lines of the lobby name, address |
| `Security.SignedTextIsInjective` | src/security.rs:52-62 | a signed text determines challenge, lobby name and address, whatever the lobby name holds |
| `Security.LineBreakInAddressCollides` | src/security.rs:52-62 | a line break in the address would make two registrations share a text |
| `Security.CtEq` | src/security.rs:30-39 | the accumulating comparison is equality |

## Left out

- Sockets, WebSocket framing, send timeouts, task scheduling: only "handed to the transport" is kept. Delivery order of notices is not claimed.
- The message loop is modelled as phases of a connection in `Sessions` and by the fields of `Connections.Connection`; the other message kinds (offers, media, file share, remote control, plaza) only forward and add no shared state.
- Signature, hash and random primitives: the signature check is an oracle that yields a client id, hashes are arbitrary functions, tokens are fresh values.
- Field validation, JSON, the client-version comparison and the lobby-id digest: flat checks, inputs of `Screen`.
- Player name apart, a member's display fields (domain, public key) are not in the record, since nothing decides on them.
- Submission cooldowns, probing, persistence and the sweeper: external effects around the quota table.
- Environment parsing, including the trusted-proxy list: the set of trusted addresses is an input.
- Registration of a lobby member whose stored address is missing cannot arise through registration and is not represented.
