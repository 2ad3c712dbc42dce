# Verification of the VC Workspace access protocols

The control plane hands out and withdraws access to virtual desktops.  Its decisions live in
PostgreSQL rows, are carried out by an agent inside the Guest that may lose or delay its replies, and
reach the user through a relay with a clock of its own.  This project models those protocols as state
machines whose steps are the SQL statements, the handlers' calls and the Guest's own actions, and proves
what holds in every interleaving.  Handlers, drains, loops, the encoder and the decoder are methods
proved against the same step functions.

| file | subject |
|---|---|
| NativeAccount, GuestFence, NativeProtocol, NativeRecovery, NativeHandlers | the versioned credential protocol between account row and Guest, its recovery, and the handlers and drains that drive it |
| Desktop, DesktopStore, DesktopGuest, DesktopAgents, DesktopWhole | one Linux desktop's tables with the VM lock: human connections, Agent leases and sessions, joined with the Guest accounts of all its users, of all its Agents, and of both together |
| RevocationQueue, ComputerDrain | the requested/completed queues and the drain of Agent authority |
| AgentFence, AgentLogin, AgentController | Agent logins: lease epochs, login generations, inspections, preparation and revocation |
| GatewayTicket, Gateway, GatewayStore, GatewayDesktop, RelayLoop, RelayWorkers, RelayTargets | tickets and leases, the relay's deadlines in real time, access read from the account rows, its goroutines, its target check |
| SessionFrame, SessionCodec, SessionWire, Receipts | the session worker's frame (Go encoder, C decoder) and the reader of its receipts |
| GuestJson | re-escaping of JSON for the Guest channel |
| CloneJobs, CloneStore, CloneFlow | clone reservations, task handles, and the browser's recovery controller |

Two clocks never need to agree anywhere: a step that compares times takes the reading as a parameter, and
the gateway model only assumes that database and relay time run at the same rate.  `now()` is a
transaction's start, so it may lie before anything that committed meanwhile; `statement_timestamp()` is the
microsecond in which a statement runs.

## What turned out not to hold as promised

- Recovering an account row after a database rollback re-establishes the invariant if and only if no command
  above the Guest's revision is still under way (`NativeRecovery.RecoveryRestoresSafety`); a late issue of
  the lost history otherwise opens the account the recovery just closed (`NativeRecovery.LostIssueDefeatsRecovery`,
  with a run and a backup that lead there in `NativeRecovery.LostIssueIsReachable`).
- Finished clone work can be reopened, and a job can be written a handle twice: the unguarded reset after a failed
  clone call sends even a succeeded job back to accepted and erases its handle (`CloneJobs.ResetAfterRecovery`).
  A handle and a finished state are final exactly when no request for the job has its clone call before it or
  unanswered (`CloneJobs.FinalOnceAnswered`).  Without a reset that meets a handle no job is given two
  (`CloneJobs.AtMostOneHandle`); after one, whatever task passes the recovery's verification is attached as well
  (`CloneJobs.ErasureAdmitsSecondHandle`).
- The relay's deadline can pass the committed `lease_until` by less than a microsecond, because the database
  stamp is rounded down and a full window loses nothing to whole milliseconds (`Gateway.DeadlineCanPassLease`,
  a run from an empty system; exact condition in `Gateway.DeadlineWithinLease`).  The five-second promise is not affected.
- The statement checks alone do not keep a human and an Agent apart: a transaction that started before a human
  reservation compares the lease with its old start time (`Desktop.StaleStartIntrudes`).  Only such starts
  intrude (`Desktop.OnlyStaleStartsIntrude`), and the VM lock excludes them.
- A failed Agent preparation whose cleanup is stored can still leave a live session of its lease: when the session
  was begun unseen, before any cleanup is owed (`AgentController.UnseenBeginKeepsSession`), or when a login was
  reserved unseen while the lease is active, because the cleanup then names the generation before
  (`AgentController.UnseenReservationKeepsSession`).  Beyond a session that was already live and not begun anew there
  is no other case (`AgentController.Controller.Prepare`).

## Model

| member | source | states |
|---|---|---|
| NativeAccount.StoreStepsPassGuard | internal/store/migrations/030_native_guest_recovery.sql:27-89 | every statement of the store that changes an account row passes the row guard in the context it runs in; an issue passes exactly when its connection differs from the row's |
| NativeAccount.GuardedHistoryIsMonotone | internal/store/migrations/030_native_guest_recovery.sql:27-89 | over any history of guarded rows the pinned identity never changes, revisions never fall, and one revision keeps one operation, connection and deadline |
| GuestFence.GuestStepIsMonotone | crates/guest-lifecycle/src/native.rs:142-213 | the Guest's fence never goes back, keeps its identity, keeps one connection per revision, and a revoked revision stays as it is |
| GuestFence.GuestStepKeepsInv | crates/guest-agent/src/computer/session/account/native.rs:87-167 | through acceptance, OS writes, failure, crash and sweep the stored fence is valid and agrees with the running command and the installed password |
| GuestFence.RevocationCloses | crates/guest-agent/src/computer/session/account/native.rs:87-167 | a free gate takes every higher or identical revocation, and carrying it out leaves the account shut |
| NativeProtocol.RunKeepsSafe | internal/store/native_guest_account.go:123-297 | the database/Guest invariant survives every sequence of reservations, sends, losses, duplicates, receipts, acknowledgements and Guest steps |
| NativeProtocol.AppliedRevokeIsClosed | internal/store/native_guest_account.go:227-297 | in every run a row at applied revoke means the Guest is shut with its fence completed at exactly that revision and connection, and of the commands under way it refuses, at any time, every one but that same revocation |
| NativeProtocol.AppliedRevokeStaysClosed | internal/httpapi/native_guest_account.go:132-157 | from such a row no further run without a new issue reopens the account or changes its fence |
| NativeProtocol.AppliedRetireEndsPasswords | internal/httpapi/native_guest_account.go:159-195 | after an applied retirement no issued password opens the account |
| NativeProtocol.LoginNeedsLiveIssue | internal/computer/native_account.go:199-263 | whenever a login is possible it is with the password of the Guest's current revision, which the database holds as its latest issue or is cleaning up |
| NativeProtocol.StepAdvancesRevision | internal/store/native_guest_account.go:171-192 | every new intent strictly raises the revision, the identity stays, and durable intents are never rewritten |
| NativeProtocol.DispatchedAtMostOnce | internal/httpapi/native_guest_account.go:72-195 | over a whole run each issue or retire revision is sent at most once, and a repeated revoke is the same command |
| NativeProtocol.RevocationIsAlwaysReachable | internal/httpapi/native_guest_account.go:132-157 | from every reachable state some continuation ends at an applied revoke with the Guest shut |
| NativeProtocol.NextIssueIsTakenUp | internal/store/native_guest_account.go:123-152 | after a settled cleanup the next issue the database reserves is one the Guest accepts |
| NativeRecovery.RecoveryRestoresSafety | internal/store/native_guest_recovery.go:16-56 | a recovery commit leaves the comparison aligned and closed with the next issue one above the Guest's revision, and restores the main invariant if and only if no command above that revision is under way |
| NativeRecovery.RollbackOfSettledGuestIsRecoverable | internal/httpapi/native_recovery.go:67-125 | rolling the row back to any older row, when the Guest had caught up with the newest, is repaired by every recovery that commits |
| NativeRecovery.LostIssueDefeatsRecovery | internal/httpapi/native_recovery.go:23-101 | with a lost issue still under way the recovered account can be opened again |
| NativeRecovery.LostIssueIsReachable | internal/httpapi/native_recovery.go:67-101 | a run from a fresh account, with the row of an earlier moment as backup, meets every premise of that failure |
| NativeRecovery.RecoveryNeedsLostHistory | internal/httpapi/native_recovery.go:103-125 | in a reachable state nothing is ever recovered, and an applied revoke compares as aligned and closed |
| NativeHandlers.NativeServer.ChangeCredential | internal/computer/native_account.go:199-263 | success means one dispatch, and the command confirmed by an inspection that shows exactly its effect |
| NativeHandlers.NativeServer.CompleteOperation | internal/store/native_guest_account.go:227-297 | an acknowledgement applies the row only with evidence for it, and moves exactly the connection rows it must |
| NativeHandlers.NativeServer.RevokeAccount | internal/httpapi/native_guest_account.go:132-157 | success means an idle account without credential history and shut, or an applied revoke with the Guest shut and the connection ended |
| NativeHandlers.NativeServer.InspectRetired | internal/httpapi/native_guest_account.go:197-240 | an uncertain retirement is taken as done only when the Guest still retains exactly it |
| NativeHandlers.NativeServer.RetireConnection | internal/httpapi/native_guest_account.go:159-195 | success leaves the connection's credential retired (only if asked and unexpired) or revoked, and the connection ended except exactly for a row that was at applied revoke already, which Desktop.OpenConnectionIsCurrent excludes for an open connection; other accounts untouched |
| NativeHandlers.NativeServer.ReserveCredential | internal/store/native_guest_account.go:123-152 | a reserved credential is a fresh connection id recorded for good |
| NativeHandlers.NativeServer.CleanUpIssue | internal/httpapi/native_guest_account.go:85-108 | the deferred cleanup supersedes exactly the failed revision by a revoke intent, or nothing |
| NativeHandlers.NativeServer.IssueConnection | internal/httpapi/native_guest_account.go:72-130 | success means an applied issue with its open connection; after a failure whose cleanup was stored the row holds a revoke intent above it |
| NativeHandlers.NativeServer.BindFirst | internal/httpapi/native_guest_account.go:35-70 | a first row pins the identity the Guest shows; the account joins the protocol exactly when the Guest has no credential history and is shut, and only then is it usable |
| NativeHandlers.NativeServer.BindAccount | internal/httpapi/native_guest_account.go:35-70 | an account with a row is usable for a new connection only when the Guest shows what the settled row says |
| NativeHandlers.NativeServer.RecoverAccount | internal/httpapi/native_guest_account.go:207-238 | one account's turn ends in order, judged at its own clock readings, without disturbing another account |
| NativeHandlers.NativeServer.RecoverAccounts | internal/httpapi/native_guest_account.go:197-240 | when the loop succeeds every account is idle, applied revoke, applied unexpired retire, or applied issue with an open unexpired connection, from any mix of pending rows |
| NativeHandlers.NativeServer.Enqueue | internal/store/guest_revocation.go:20-30 | new requests raise the requested revision and never the completed one |
| NativeHandlers.NativeServer.DrainIdentity | internal/store/guest_revocation.go:71-104 | a counter moves only to the revision that was read, only if no newer request arrived, and only for a withdrawn account |
| NativeHandlers.NativeServer.DrainIdentities | internal/httpapi/guest_session_revocation.go:68-104 | the same over the whole loop on every exit, and success completes every item with its account withdrawn |
| Desktop.HumanAndAgentExclude | internal/httpapi/server.go:876-999 | no reachable state of a Linux desktop has both an open human connection and a live Agent session |
| Desktop.OpenConnectionIsCurrent | internal/store/native_guest_account.go:227-297 | every open connection is its account's current credential, at applied issue or pending cleanup, and there is at most one |
| Desktop.AtMostOneAgentSession | internal/store/agent_guest_session.go:50-94 | a desktop never has two live Agent sessions |
| Desktop.BeginSessionPassesGuard | internal/store/migrations/027_agent_login_generation.sql:20-42 | a session the store begins replaces a disabled one with a higher epoch, the next generation and no login |
| Desktop.AccountStepsPassGuard | internal/store/migrations/030_native_guest_recovery.sql:27-89 | with the whole desktop as context, every change of an account row passes the row guard |
| Desktop.OnlyStaleStartsIntrude | internal/store/agent_guest_session.go:58-67 | beside a human reservation a session can begin only in a transaction that started before it |
| Desktop.StaleStartIntrudes | internal/httpapi/server.go:4723-4742 | such a transaction does get through when the VM lock is not held, and ends with both sides live |
| Desktop.ReservedAfterLeaseIsReachable | internal/store/store.go:1733-1773 | the state in which that happens is reachable |
| DesktopStore.Store.Unoccupied | internal/store/native_guest_account.go:133-142 | the admission query is true exactly when nobody else uses, holds or is about to open the desktop and the id is new |
| DesktopStore.Store.BeginCredential | internal/store/native_guest_account.go:123-152 | the transaction writes exactly the reserved row or nothing |
| DesktopStore.Store.CompleteOperation | internal/store/native_guest_account.go:201-297 | acknowledgement, connection row and gateway ticket commit together or not at all |
| DesktopStore.Store.EndLease | internal/store/migrations/024_agent_guest_sessions.sql:22-33 | ending a lease closes its session and queues cleanup in the same transaction |
| DesktopStore.Store.ExpireLeases | internal/store/agent_guest_session.go:171-175 | every due lease ends the same way and no other does |
| DesktopStore.Store.CreateLease | internal/store/store.go:1733-1773 | a lease is granted only on a free desktop, with a new epoch, or nothing changes |
| DesktopStore.Store.BeginAgentSession | internal/store/agent_guest_session.go:50-94 | the transaction begins, resumes or refuses a session exactly as the invariants need |
| DesktopGuest.NoHumanLoginBesideAgent | internal/httpapi/server.go:4723-4742 | with all Guests included: while an Agent session is live no human account on the desktop admits a login |
| DesktopGuest.LoginOwnsReservation | internal/httpapi/server.go:910-975 | a possible human login belongs to the one user who holds the desktop's reservation |
| DesktopGuest.RunKeepsInv | internal/httpapi/server.go:876-999 | the desktop's tables and every user's protocol state stay consistent over all joint runs |
| DesktopAgents.NoAgentRunsBesideHuman | internal/httpapi/server.go:876-999 | while a human connection is open or a credential for one is reserved and not cleaned up, no process, login writer or usable password of any Agent exists and none of their logins can still be taken up |
| DesktopAgents.RunKeepsInv | internal/store/agent_guest_session.go:50-175 | the desktop's tables agree with the rows, leases, handlers and Guest account of every Agent over all joint runs |
| DesktopAgents.DesktopGoesItsWay | internal/store/store.go:1733-1773 | the join blocks no lease, no end of a lease and no session the tables admit |
| DesktopWhole.RunProjects | internal/httpapi/server.go:876-999 | every run of tables, users' Guests and Agents' Guests together is a run of the human side and a run of the Agent side |
| DesktopWhole.LoginsExclude | internal/httpapi/server.go:4723-4742 | in every run of the whole a possible human login means that nothing of any Agent runs or can still start in the Guest, and that no other user can log in |
| DesktopWhole.AgentActivityKeepsHumansOut | internal/store/agent_guest_session.go:50-175 | conversely, while anything of an Agent runs or can still start, no human connection is open and no issue can open any user's account |
| RevocationQueue.NoRevocationIsLost | internal/store/computer_revocation.go:40-72 | completed never passes requested, and each completed request was counted by Guest work that began after it committed |
| RevocationQueue.OvertakenWorkCompletesNothing | internal/store/guest_revocation.go:71-104 | work overtaken by a new request acknowledges nothing |
| ComputerDrain.StepKeepsClosingQueued | internal/store/migrations/024_agent_guest_sessions.sql:22-33 | a session that has to be closed is always announced by the queue |
| ComputerDrain.Drain.CloseSessions | internal/httpapi/agent_guest_session.go:207-269 | if no newer request arrived, no session is left to close when the loop succeeds |
| ComputerDrain.Drain.Synchronize | internal/httpapi/computer_revocation.go:13-39 | the queue is acknowledged only at the revision read first, with no session left to close, whatever ends meanwhile |
| AgentFence.SpentForGood | crates/guest-lifecycle/src/lib.rs:225-290 | a login the fence turns away once is turned away for ever |
| AgentFence.RevocationLasts | crates/guest-lifecycle/src/lib.rs:225-290 | a revoked lease epoch stays revoked through every Guest step |
| AgentFence.QuietLasts | crates/guest-agent/src/computer/session/account/lease.rs:349-436 | an empty account stays empty until a login is taken up |
| AgentFence.TakenLoginIsSpent | crates/guest-lifecycle/src/lib.rs:225-290 | a login can be taken up once only |
| AgentFence.GuestStepKeepsInv | crates/guest-agent/src/computer/session/account/lease.rs:349-436 | a sealed fence means the login's password is gone; the identity is pinned |
| AgentLogin.RunKeepsInv | internal/store/agent_guest_login.go:55-83 | the invariant of rows, handlers, reservations and Guest survives every interleaving |
| AgentLogin.LoginSentAtMostOnce | internal/httpapi/agent_guest_session.go:133-145 | each login generation of each lease epoch is dispatched at most once |
| AgentLogin.ReservationRestsOnVacancy | internal/httpapi/agent_guest_session.go:95-134 | a generation is reserved only while the account is empty and every earlier reservation is spent |
| AgentLogin.LoginNeverDisturbs | internal/httpapi/agent_guest_session.go:95-145 | a login the Guest takes up, however late, meets no process, no login writer and no usable password |
| AgentLogin.DisabledMeansEmpty | internal/store/agent_guest_session.go:154-169 | an Agent without a session, or with a disabled one, has nothing running in the Guest and no login that could still be taken up |
| AgentLogin.StepsPassGuard | internal/store/migrations/027_agent_login_generation.sql:20-42 | no statement runs into the session row guard, and the pinned identity never changes |
| AgentController.Controller.AwaitLoginExit | internal/httpapi/agent_guest_session.go:166-200 | success means the last inspection shows this very login sealed, unexpired, without process and writer; giving up as unavailable means it does not |
| AgentController.Controller.BindIdentity | internal/store/agent_guest_login.go:23-50 | the identity is pinned from an inspection before any login, for the same login row |
| AgentController.Controller.StartLogin | internal/computer/agent_session.go:46-79 | success means exactly the next generation was dispatched once and the Guest shows it sealed |
| AgentController.Controller.Bootstrap | internal/httpapi/agent_guest_session.go:46-156 | at most one login is dispatched, and success leaves the session ready under a positive generation |
| AgentController.Controller.Prepare | internal/httpapi/agent_guest_session.go:14-164 | after a failure with the cleanup stored a live session of the lease is left if and only if it was not begun and already live, was begun unseen, or a login was reserved unseen and the lease is active |
| AgentController.UnseenReservationKeepsSession | internal/httpapi/agent_guest_session.go:41-52 | a run after which the row is live at the first login while the cleanup for the row without a login matches nothing |
| AgentController.UnseenBeginKeepsSession | internal/httpapi/agent_guest_session.go:36-39 | a run after which the session is live before any cleanup is owed |
| AgentController.Controller.Revoke | internal/httpapi/agent_guest_session.go:224-267 | once a session is disabled nothing of the Agent runs and no login ever reserved for it can still be taken up |
| GatewayTicket.MintIsWellFormed | internal/store/gateway_ticket.go:97-120 | a minted ticket meets the table's constraints |
| GatewayTicket.StatementsPassGuard | internal/store/migrations/029_gateway_session_tickets.sql:19-63 | redeem, renew and close meet the table's constraints and its row guard |
| GatewayTicket.OverIsFinal | internal/store/gateway_ticket.go:155-234 | a tunnel that lapsed or was closed is neither redeemed nor renewed at any later time |
| Gateway.TicketsAreForever | internal/store/gateway_ticket.go:97-234 | in every run a ticket is redeemed at most once, its lease never passes the session deadline fixed at mint, and an ended tunnel stays ended |
| Gateway.DeadlineBounds | internal/gateway/control.go:127-133 | the relay's deadline lies within five seconds of its own request and within one stamp of the committed lease |
| Gateway.DeadlineWithinLease | internal/gateway/control_client.go:95-115 | it stays within the committed lease exactly when the part lost to whole milliseconds covers the stamp's rounding |
| Gateway.DeadlineCanPassLease | internal/store/gateway_ticket.go:149-150 | a run from an empty system in which the relay serves under a deadline beyond the committed lease |
| Gateway.RedeemFacts | internal/store/gateway_ticket.go:155-186 | a redemption grants only to an admitted connection, keeps every row sound and burns the token |
| Gateway.RenewFacts | internal/store/gateway_ticket.go:188-210 | a renewal grants only to a connection admitted at that moment |
| Gateway.UntouchedStaysOut | internal/store/gateway_ticket.go:51-69 | a connection without access that no decision touches stays without, whatever time passes |
| Gateway.WithdrawnAccessStopsTraffic | internal/gateway/relay.go:117-232 | while a connection has no access, whatever is decided about it meanwhile, no byte of it crosses a relay five seconds later, for every delay of every request and reply |
| Gateway.BytesWithinLease | internal/gateway/relay.go:138-232 | every byte crossed before the lease of the grant it rode on ended, up to one stamp |
| GatewayDesktop.WithdrawnCredentialStopsTraffic | internal/store/gateway_ticket.go:51-69 | from the statement that reserves the retirement or revocation of a connection's credential, or marks the connection itself as being revoked or ended, no byte of that connection crosses a relay five seconds later, whatever is decided or renewed afterwards |
| GatewayDesktop.CleanupMakesGone | internal/store/native_guest_account.go:171-192 | reserving a cleanup takes the credential out of every account's issue for good |
| GatewayDesktop.OutLasts | internal/store/native_guest_account.go:227-297 | a connection whose credential is gone, or that is no longer active, stays so through every transaction |
| GatewayDesktop.OutIsIneligible | internal/store/gateway_ticket.go:66-68 | such a connection is never admitted by the access view |
| GatewayStore.Store.Redeem | internal/store/gateway_ticket.go:155-186 | a token is handed out once; an unknown commit burns it without a grant; a failed audit takes the redemption back |
| GatewayStore.Store.Renew | internal/store/gateway_ticket.go:188-210 | an ended tunnel is never renewed, and a grant is backed by access and by the row it reports |
| GatewayStore.Store.Close | internal/store/gateway_ticket.go:212-234 | closing is idempotent and final |
| RelayLoop.Loop | internal/gateway/relay.go:180-232 | the loop follows the timed model event by event; each deadline is adopted before it and before its predecessor ran out |
| RelayLoop.Serve | internal/gateway/relay.go:117-232 | the same from the redemption reply on, with the rejections before any dial |
| RelayWorkers.CapacityHolds | internal/gateway/relay.go:107-113 | concurrent tunnels never exceed capacity and every slot is released exactly once |
| RelayWorkers.WorkersEndBeforeClose | internal/gateway/relay.go:122-133 | both copy workers have ended before the close request, which is sent exactly once for a known tunnel |
| RelayWorkers.NothingBlocks | internal/gateway/relay.go:167-231 | the put-back and every send find room, the join waits only for a worker still copying, and at most one renewal is outstanding |
| RelayTargets.ValidTargetPrefixes | internal/gateway/relay.go:63-79 | accepts exactly 1 to 128 canonical IPv4 prefixes inside the private ranges |
| RelayTargets.AllowedIsPrivate | internal/gateway/relay.go:81-94 | an address inside an accepted prefix is private |
| SessionFrame.ParsesExactlyFormatted | apps/session-worker/protocol.c:42-43 | an address text is accepted only if it is the canonical form of its four octets |
| SessionFrame.ParseOfFormat | internal/rdpsession/session.go:65 | and the canonical form is always accepted |
| SessionFrame.ToHexOfFromHex | apps/session-worker/protocol.c:30-35 | the fingerprint is the configured digest in lower case |
| SessionCodec.BodyFits | internal/rdpsession/session.go:66-80 | the layout written is the layout read |
| SessionCodec.BodyOfSplit | apps/session-worker/protocol.c:17-41 | an accepted layout is rebuilt byte for byte from its parts |
| SessionCodec.RoundTrip | internal/rdpsession/session.go:47-82 | every accepted configuration is decoded to exactly its fields at every time from encoding to its floored expiry |
| SessionCodec.Injective | apps/session-worker/protocol.c:17-54 | two accepted frames with the same fields are the same frame |
| SessionCodec.NothingElseAccepted | apps/session-worker/protocol.c:17-54 | every accepted frame is the frame of a configuration the encoder accepts |
| SessionWire.Check | internal/rdpsession/session.go:48-63 | the encoder's checks accept exactly the admissible configurations |
| SessionWire.PutBody | internal/rdpsession/session.go:68-80 | the buffer holds the body and its length prefix stays |
| SessionWire.Frame | internal/rdpsession/session.go:47-82 | a frame is produced exactly for admissible configurations, with exactly the specified bytes |
| SessionWire.ParseHeader | apps/session-worker/protocol.c:20-29 | the header is accepted exactly when lengths, ranges and lifetime fit |
| SessionWire.Parse | apps/session-worker/protocol.c:22-49 | acceptance and contents equal the decoding function, within all buffers |
| SessionWire.DecodeFrame | apps/session-worker/protocol.c:17-54 | the caller's record holds the request on acceptance and is all zero on rejection |
| Receipts.Session.ReadReceipts | internal/rdpsession/session.go:271-311 | the reader stops at the first line that is not new good news, records why, and closes ready exactly when both receipts came |
| Receipts.Session.ReadStream | internal/rdpsession/session.go:271-311 | for every byte stream the reader ends with a failure recorded and ready closed at most once |
| Receipts.StreamStops | internal/rdpsession/session.go:271-275 | no byte stream keeps the reader going |
| Receipts.ReadyMeansBoth | internal/rdpsession/session.go:306-308 | ready means exactly one connected and one frame receipt, in either order, and nothing before |
| GuestJson.RunesOfUtf8 | internal/pve/guest_json.go:24 | reading UTF-8 as Go's range loop does gives back the encoded characters |
| GuestJson.ValidText | internal/pve/guest_json.go:15-39 | for valid UTF-8 the escaped form is at most three times as long and reads as the same JSON |
| GuestJson.CharactersOfUnits | internal/pve/guest_json.go:30-32 | the surrogate arithmetic is inverted by reading code units (RFC 2781, sections 2.1 and 2.2) |
| GuestJson.EscapePreservesMeaning | internal/pve/guest_json.go:24-37 | the escaped text reads to the same structure and the same string contents (RFC 8259, section 7), existing escapes included |
| GuestJson.EscapeIsIdempotent | internal/pve/guest_json.go:24-37 | the result is pure ASCII, and ASCII text is left alone |
| GuestJson.EscapeAtMostTriples | internal/pve/guest_json.go:24-37 | the result is at most three times as long as the input |
| GuestJson.MarshalGuestJson | internal/pve/guest_json.go:15-39 | success exactly when the bytes and the escaped form fit 64 KiB; the result is ASCII and keeps the meaning of all valid UTF-8 |
| CloneJobs.TargetsAreDistinct | internal/store/clone_reservation.go:45-107 | over all runs clone jobs have pairwise distinct targets |
| CloneJobs.OwnershipLasts | internal/store/clone_reservation.go:31-36 | a job keeps its key, source, target and fingerprint for ever |
| CloneJobs.OneSubmissionPerKey | internal/httpapi/server.go:3666-3701 | each idempotency key leads to at most one clone submission |
| CloneJobs.AtMostOneHandle | internal/store/clone_recovery.go:19-59 | without a reset meeting a handle, a job is given at most one |
| CloneJobs.ErasureAdmitsSecondHandle | internal/store/store.go:2110-2113 | in every run a reset that meets a handle lets a verified task be attached: the erased handle and the new one are both in the job's history |
| CloneJobs.ResetAfterRecovery | internal/httpapi/server.go:3688-3696 | a run in which the one verified task is recovered and completes and the reset then returns the succeeded job to accepted without its handle |
| CloneJobs.FinalOnceAnswered | internal/httpapi/server.go:3684-3702 | a handle, and a finished state with it, stays in every continuation if and only if no request for the job is reserved or has an unanswered clone call |
| CloneStore.Store.FindTarget | internal/store/clone_reservation.go:69-83 | the least free id of the 1024-wide window, or none is free |
| CloneStore.Store.Reserve | internal/store/clone_reservation.go:34-107 | a fresh key gets the least free id, or the fixed target unless a desktop or another clone has it; a conflict is reported exactly for an improper request, a reused key with another fingerprint, no such id or a taken job id |
| CloneStore.Store.CreateInstance | internal/httpapi/server.go:3666-3707 | only the request that created the job submits it, whatever runs alongside; every exit leaves the handler, and success means the answered handle is recorded |
| CloneFlow.ListChoices | apps/web/src/clone-recovery.ts:9-17 | offers exactly the finished candidates, and none if one is malformed or repeated |
| CloneFlow.SubmitsAtMostOnce | apps/web/src/clone-recovery-flow.ts:52-63 | in its lifetime the controller submits at most once |
| CloneFlow.SettledCarriesSubmission | apps/web/src/clone-recovery-flow.ts:52-75 | settled speaks of this job and of the submitted handle |
| CloneFlow.SupersededForGood | apps/web/src/clone-recovery-flow.ts:21-39 | a request once superseded never counts again, in every later sequence of events |
| CloneFlow.SupersededNeverMatters | apps/web/src/clone-recovery-flow.ts:41-76 | a superseded reply, delivered at any point, leaves every later view, submission and request as without it |
| CloneFlow.DisposedIsFinal | apps/web/src/clone-recovery-flow.ts:76 | after disposal neither view nor submissions change in any sequence of events |
| CloneFlow.SettledIsFinal | apps/web/src/clone-recovery-flow.ts:41-76 | settled and conflict are never left |
| CloneFlow.Controller.Load | apps/web/src/clone-recovery-flow.ts:41-51 | acts only before a submission |
| CloneFlow.Controller.Submit | apps/web/src/clone-recovery-flow.ts:52-63 | submits only an offered handle, only when ready |
| CloneFlow.Controller.Check | apps/web/src/clone-recovery-flow.ts:64-75 | re-reads only an uncertain outcome |
| CloneFlow.Controller.Receive | apps/web/src/clone-recovery-flow.ts:45-74 | only the current request's reply moves the view |
| CloneFlow.Controller.Dispose | apps/web/src/clone-recovery-flow.ts:76 | whatever happens afterwards, view and submissions stay as they are |

## Left out

- The PVE client, QGA polling, OIDC, the image builder, the MCP server and the Terraform provider: wrappers around other services.
- Windows accounts and sessions: their Native credentials carry no revision and the default flow does not use them.
- Shell, PowerShell and PAM texts and the identity-profile reconciliation: their effect appears only as the Guest's steps.
- The Guest's file system: persisting a fence is one atomic step, and a corrupt record is not modelled.
- Password contents, token digests, audit events and the text of errors: fresh opaque values or omitted.
- `effective_user_desktop_access` and the joins of the access view beyond connection, account and revocation rows: one decision per connection that may change at any time.
- Connection, tunnel and lease ids and task handles as texts with a fixed shape: abstract values.
- Wall clocks before 1970 in the frame encoder: instants are natural numbers whose milliseconds fit 64 bits.
- The hypervisor's answers in clone recovery: task type, principal, time window, log target and target marker are one verification that a task passes or not.
- JSON decoding of receipts and of inspections: the decoder's result is a parameter, its range checks are modelled.
- FreeRDP, X11 and the user interface around the recovery controller.
- AgentFence.GuestStepKeepsInv: the separate open and seal commands of the Guest tool are not modelled, because the control plane only sends the combined login and the revocation.
- ComputerDrain.Drain.CloseSessions: the Guest's confirmation is an outcome of the call; what it establishes at the Guest is the subject of AgentController.Controller.Revoke and DesktopAgents.
- RelayWorkers.NothingBlocks: sockets are abstract; that a closed socket ends its copy worker is the worker's own step.
