# Misaka network: a verified model of the server's protocols and the client's transfer formats

The server issues TURN credentials against a monthly budget, keeps sessions and cluster channels for
signalling, and bounds every resource it hands out. The client cuts files into chunks and exchanges
bitmaps, ranges and binary frames. This project models that logic in Dafny and proves what it is for.

Everything on the server runs on one thread, so a handler is atomic between two awaits and anything may
happen at an await. The asynchronous parts are therefore state machines: one event is one synchronous
stretch, a suspended function is a task holding what its closure captured, and a run is any sequence of
events. Times, provider answers, client frames and the order in which a map is visited are chosen by the
environment. The synchronous code is modelled twice: as functions on values, which the machines use, and
as classes whose methods edit module state step by step and are proved equal to those functions.

| files | what they model |
|---|---|
| `TurnState`, `TurnMachine`, `TurnEngine` | TURN accounting: the state, the interleaved tasks, the code that edits the state in place |
| `TurnOps`, `TurnRuns` | what every operation keeps every step and every run keeps; captured records stay valid |
| `TurnKillSwitch`, `TurnAccounting`, `TurnSettlement` | the theorems about the kill switch, the counters and the ledger |
| `TurnRemoval`, `TurnLateIssue` | what is lost when a revoked entry is removed, and a run in which something is |
| `TurnCrash`, `TurnFile`, `TurnReload`, `TurnLostBan` | the theorems about crashes, how a state is written to its file, what a restart from it keeps, and a run in which a ban is lost |
| `FlushChain`, `Snapshot` | the serialised write chain, and reading a snapshot back |
| `Analytics` | cursor pagination over the provider's usage table |
| `SessionState`, `SessionMachine`, `SessionServer` | sessions, channels, sockets and admission: state, events, handlers |
| `SessionChannels`, `SessionProofs`, `SessionAdmission`, `SessionIpCap`, `SessionRoster` | the theorems about channels and sockets, re-registration proofs, racing registrations, the cap on one address, rosters |
| `RateLimit`, `RateBucket`, `ScryptSemaphore` | the bounded-resource controllers |
| `ChunkBitmap`, `ChunkRanges` | the chunk bitmap, its two range encoders and the normaliser |
| `TransferProtocol` | chunk geometry, frames, additional data and IVs |
| `Common`, `Sums` | what several modules share, and totals over finite maps |

`dafny verify dfyconfig.toml` checks the whole project.

## Model

| member | source | states |
|---|---|---|
| TurnEngine.TurnModule.RollMonthIfNeeded | server/src/persist.ts:473-499 | a new month starts from zero counters with the switch off; the same month changes nothing |
| TurnEngine.TurnModule.PruneIssuanceHistory | server/src/turn.ts:738-744 | the history keeps exactly the rows of the last hour, in order |
| TurnEngine.TurnModule.PruneIpByteLedger | server/src/turn.ts:763-770 | the ledger keeps exactly the rows of the last hour, in order |
| TurnEngine.TurnModule.PruneDenials | server/src/turn.ts:333-343 | exactly the denials still running stay |
| TurnEngine.TurnModule.SettleCredentialUsage | server/src/turn.ts:780-791 | an unsettled credential writes one row of the larger of the two figures, a settled one nothing |
| TurnEngine.TurnModule.PruneActiveCredentials | server/src/turn.ts:793-804 | every expired entry is settled, then dropped with its cached grant; the others stay |
| TurnEngine.TurnModule.SumHourlyBytesForIp | server/src/turn.ts:811-822 | the loop computes the estimates of the IP's active credentials plus its ledger rows of the hour |
| TurnEngine.TurnModule.EvaluateGlobalKillSwitch | server/src/turn.ts:824-836 | trips exactly when off and at the limit, and then settles and queues every credential if so configured |
| TurnEngine.TurnModule.SettleAndQueueAll | server/src/turn.ts:844-859 | the sweep before its first await: every listed entry settled and pending |
| TurnEngine.TurnModule.CountStrikes | server/src/turn.ts:369-380 | counts exactly the IP's live principal denials |
| TurnEngine.TurnModule.DenyPrincipal | server/src/turn.ts:357-386 | both denials are written, and the IP's once the strikes reach the bound; the fallback count is never used |
| TurnEngine.TurnModule.ReserveCredential | server/src/turn.ts:186-240 | reserves exactly when both per-IP caps leave room, and changes nothing otherwise |
| TurnEngine.TurnModule.RollbackReservation | server/src/turn.ts:280-300 | removes the entry only if it is this reservation's own, its history row, and its bytes |
| TurnEngine.TurnModule.AdmitRequest | server/src/turn.ts:124-176 | the sweeps and the gates in the source's order |
| TurnEngine.TurnModule.ApplyUsageRow | server/src/turn.ts:1047-1065 | confirmed bytes are recorded and the estimate only ever raised |
| TurnEngine.TurnModule.SettleDenyAndQueue | server/src/turn.ts:1086-1095 | settle, deny and queue, in that order, before the flush |
| TurnEngine.TurnModule.ApplyMonthTotal | server/src/turn.ts:1210-1243 | a lower bound only raises; a complete total replaces the figures and may clear the switch |
| TurnOps.StepKeeps | server/src/turn.ts:124-1257 | whatever the primitive operations keep, every atomic step of every task keeps |
| TurnRuns.RunHealthy | server/src/turn.ts:165-183 | over every run captured records stay valid and no identifier has two issuances in flight |
| TurnRuns.StepCarries | server/src/turn.ts:212-300 | one step adds at most its own record and issuance and closes at most the reservation it was answered for |
| TurnRuns.RunKeeps | server/src/turn.ts:124-1257 | an operation invariant that holds at boot holds after every run |
| TurnRuns.FirstStartBoots | server/src/persist.ts:399-406 | a first start without a file is a boot state, so there are runs |
| TurnKillSwitch.UsageIsMeasured | server/src/turn.ts:235-239 | over every run observed bytes are the larger of the provider's figure and the estimate |
| TurnKillSwitch.OneCrossingPerClear | server/src/turn.ts:242-254 | an issuance that leaves usage at the limit is followed by no other start until the switch is cleared |
| TurnKillSwitch.WhatTurnsTheSwitchOff | server/src/turn.ts:1235-1243 | only a month roll or a complete current total below the limit turns the switch off |
| TurnKillSwitch.LowerBoundOnlyRaises | server/src/turn.ts:1210-1225 | a truncated total lowers no counter and never turns the switch off, but may turn it on |
| TurnKillSwitch.CrossingTrips | server/src/turn.ts:235-254 | the issuance that reaches the limit leaves the switch on before the provider is called |
| TurnKillSwitch.SwitchMeasures | server/src/turn.ts:824-836 | after an evaluation the switch is on exactly if it was or usage is at the limit, nothing else in the record changing |
| TurnKillSwitch.TrippingCondemnsEverything | server/src/turn.ts:844-859 | tripping with revocation on leaves every active credential settled and pending |
| TurnAccounting.EstimateAddsUp | server/src/turn.ts:235-239 | without a reset the estimate is boot plus reservations not rolled back plus corrections; the clamp never fires |
| TurnAccounting.HistoryIsExact | server/src/turn.ts:232-234 | the history is one row for each issuance not rolled back, less those aged out |
| TurnAccounting.NoHourExceedsTheCap | server/src/turn.ts:195-200 | no closed hour holds more issuances of one IP than the cap, over any run |
| TurnAccounting.CappedHours | server/src/turn.ts:195-200 | checking each issuance against the hour behind it bounds every hour |
| TurnAccounting.RollbackIsLocal | server/src/turn.ts:280-300 | a rollback leaves every other entry, record, grant and history row as it was |
| TurnSettlement.OneRowForEachReservation | server/src/turn.ts:780-791 | over any run a reservation writes at most one ledger row |
| TurnSettlement.SettleConfirms | server/src/turn.ts:780-791 | settling moves what a record owes into the ledger, exactly |
| TurnSettlement.SettleAndRemoveConfirms | server/src/turn.ts:584-599 | conserves each IP's confirmed bytes while the key maps to the same reservation, and says what is lost otherwise |
| TurnSettlement.RetryStepConserves | server/src/turn.ts:574-608 | so does every step of the retry loop |
| TurnSettlement.ExpireConserves | server/src/turn.ts:793-804 | expiry conserves each IP's confirmed bytes |
| TurnSettlement.SweepConserves | server/src/turn.ts:852-859 | the kill-switch sweep conserves them |
| TurnSettlement.CondemnConserves | server/src/turn.ts:1086-1095 | the abuse path conserves them and leaves the credential settled |
| TurnRemoval.RemovalConservesIff | server/src/turn.ts:1106-1110 | a removal keeps every IP's confirmed bytes if and only if there is no entry or it owes nothing |
| TurnRemoval.AbuseRemovalConservesIff | server/src/turn.ts:1086-1122 | in every run an answered abuse revoke keeps confirmed bytes unless it deletes a newer entry that owes some |
| TurnRemoval.BannedRemovalConserves | server/src/turn.ts:1086-1122 | with denial on it keeps them in every history until the ban runs out |
| TurnRemoval.SweepRemovalConservesIff | server/src/turn.ts:852-887 | in every run an answered revoke of the kill-switch sweep keeps confirmed bytes unless it deletes an entry younger than the sweep that owes some |
| TurnRemoval.RunSettles | server/src/turn.ts:844-887 | over every run what the abuse path revokes is settled, and so is every listed entry older than its sweep |
| TurnLateIssue.LateIssueIsLost | server/src/turn.ts:870-876 | a run in which the sweep deletes a credential issued meanwhile, and its five confirmed bytes |
| TurnSettlement.RenewalForgets | server/src/turn.ts:233-233 | a renewal loses exactly what the entry it overwrites still owed |
| TurnCrash.CondemnHolds | server/src/turn.ts:1086-1095 | the synchronous half establishes the denial, the ledger row and the pending entry |
| TurnCrash.OpKeepsHeld | server/src/turn.ts:333-386 | no operation takes any of the three away before its own deadline |
| TurnCrash.HistoryProtects | server/src/turn.ts:1096-1110 | over any history of steps, flushes and file operations, failing ones included, what was condemned stays protected |
| TurnCrash.RevokeOnlyAfterItIsOnDisk | server/src/turn.ts:1096-1106 | whenever the abuse path revokes, the file holds the denial, the rows and the pending entry |
| TurnCrash.FirstStartIsAwake | server/src/persist.ts:388-441 | a process that has just loaded its file is a state the crash theorem starts from |
| TurnFile.EveryStateIsWritten | server/src/persist.ts:518-524 | every state has a snapshot it is written as |
| TurnFile.OneFileOneState | server/src/persist.ts:251-386 | one file stands for one state, but for references and the wording of an error |
| TurnFile.MonthKeyIsInjective | server/src/persist.ts:124-128 | different months have different keys |
| TurnReload.AcceptedIff | server/src/persist.ts:286-376 | the reader accepts the file of a state if and only if its counters, credentials and ledger rows are all within bounds |
| TurnReload.ReloadedIsWritten | server/src/persist.ts:388-441 | what loading an accepted file gives, denials and history rows out of bounds gone and over-long texts left out |
| TurnReload.RestartRestores | server/src/persist.ts:388-441 | a restart has exactly that state with issuance on if the file is accepted, and an empty one with issuance off otherwise |
| TurnReload.DenialSurvivesIff | server/src/persist.ts:343-357 | a denial survives a restart if and only if the file is accepted and the denial's own key and times are within bounds |
| TurnReload.IssuancesSurviveIff | server/src/persist.ts:334-341 | an accepted file keeps an address's issuances of the hour if and only if each of its rows of that hour is within bounds |
| TurnReload.HourlyBytesSurviveIff | server/src/persist.ts:286-376 | and its hourly bytes, at any later time, if and only if no credential dropped counts some and no row without an address does |
| TurnReload.EveryFileRestarts | server/src/persist.ts:388-441 | from every file of every run's state a process can start, whether the file is accepted or not |
| TurnReload.CrashStillDenies | server/src/turn.ts:158-163 | after a crash at the revoke and a restart from the file, the denial is back if and only if the file is accepted and the denial is within bounds; then what it covers is refused in every run until the ban ends, and an accepted file queues the credential again |
| TurnLostBan.SomeFile | server/src/persist.ts:518-524 | the state of the run in `TheBanIsLost` has a file, so what is said of every such file is not empty |
| TurnLostBan.TheBanIsLost | server/src/persist.ts:290-293 | a run in which another credential's over-long address gets the file that holds a ban refused, and the banned principal is served after the restart |
| FlushChain.TurnStateFile.FlushTurnState | server/src/persist.ts:509-534 | what each kind of flush queues and returns, failed and unloaded states included |
| FlushChain.TurnStateFile.BeginFlush | server/src/persist.ts:518-524 | a queued flush snapshots the state when it starts, and refuses over a failed load |
| FlushChain.TurnStateFile.EndFlush | server/src/persist.ts:523-533 | a failed write raises the dirty flag again, and rejects only if strict |
| FlushChain.TurnStateFile.LoadTurnState | server/src/persist.ts:388-441 | a file that cannot be trusted leaves the empty state and the failed flag; a good one of an earlier month is rolled over and marked dirty |
| FlushChain.TurnStateFile.MarkTurnStateRecovered | server/src/persist.ts:461-467 | leaves the failed state once |
| FlushChain.RunsAreSound | server/src/persist.ts:509-534 | over every run at most one write is in flight and no update is lost |
| FlushChain.FailedLoadIsKept | server/src/persist.ts:510-520 | a file that failed to load is not overwritten before a recovery |
| FlushChain.StrictFlushProtects | server/src/persist.ts:517-533 | a strict flush protects what holds when it is asked for |
| FlushChain.StepKeepsProtection | server/src/persist.ts:517-533 | and no interleaving takes it from the file again |
| Snapshot.ValidateTurnState | server/src/persist.ts:251-386 | the checks and loops with their early returns accept exactly the trustworthy snapshots, and keep exactly their sound entries |
| Snapshot.CredentialsAreNeverDropped | server/src/persist.ts:286-332 | an accepted file contains every credential-shaped entry with its own counters |
| Snapshot.HourlyBytesSurvive | server/src/persist.ts:362-376 | an accepted file never lowers an IP's hourly bytes |
| Snapshot.MonthlyBytesSurvive | server/src/persist.ts:259-285 | an accepted file never lowers the month's bytes, legacy files included, and keeps the switch |
| Snapshot.ReadsBackIff | server/src/persist.ts:251-386 | a written snapshot reads back unchanged, except for ledger rows older than an hour, if and only if every entry is within the reader's bounds |
| Snapshot.WrittenIsRead | server/src/persist.ts:251-386 | of every snapshot the server can write: whether it is accepted, and what then is read, drops and replaced texts included |
| Snapshot.AcceptedIsNotReadBack | server/src/persist.ts:334-341 | a history row with an over-long address is dropped from a file that is accepted |
| Analytics.FetchIdentifierPages | server/src/turn.ts:952-997 | every row once when not truncated, otherwise exactly the first limit times pages; truncated exactly when the table is that long |
| Analytics.FallbackTotal | server/src/turn.ts:1175-1179 | the fallback total is a lower bound, and exact when not truncated |
| Analytics.BytesByIdentifier | server/src/turn.ts:1040-1045 | the map holds exactly the sums of the identifiers' rows |
| Analytics.ResumesAfter | server/src/turn.ts:966-992 | a query past the last identifier fetched resumes at the next row |
| Analytics.OneRowEach | server/src/turn.ts:1040-1045 | each identifier fetched is charged its one row's bytes |
| SessionServer.Server.TerminateSession | server/src/session-lifecycle.ts:62-127 | the fixed order of teardown steps, early return included |
| SessionServer.Server.LeaveChannel | server/src/ws.ts:660-671 | the others are told, the member is removed, an empty channel goes |
| SessionServer.Server.OnJoin | server/src/ws.ts:550-579 | the loop announces the newcomer and every member it may meet to each other, the newcomer on the socket its frame came on |
| SessionServer.Server.OnMessage | server/src/ws.ts:499-508 | an expired session is closed, any other is served, whether or not it is still in the map |
| SessionServer.Server.OnBlock | server/src/ws.ts:642-655 | a block is recorded and announced unless the cap is reached |
| SessionServer.Server.OnAuth | server/src/ws.ts:467-484 | supersedes another socket and re-points both indexes |
| SessionServer.Server.OnClose | server/src/ws.ts:511-529 | a superseded socket is only forgotten; a current one leaves the channel and keeps the session |
| SessionServer.Server.UnindexProof | server/src/store.ts:69-75 | unindexes the proof and leaves a tombstone for its node |
| SessionServer.Server.ResolveProof | server/src/store.ts:87-115 | whom a proof authenticates or is charged to, with its lazy clean-up |
| SessionServer.Server.RenewSession | server/src/http.ts:563-589 | rotates the proof and extends the deadline |
| SessionServer.Server.CountNodesByIp | server/src/store.ts:527-533 | counts exactly the live sessions of the IP |
| SessionServer.Server.HasConflict | server/src/http.ts:343-344 | finds a live session of the node with another identity if there is one |
| SessionServer.Server.CommitRegistration | server/src/http.ts:337-412 | publishes exactly when every repeated check passes, consuming the grant |
| SessionServer.Server.ReRegisterWith | server/src/http.ts:436-547 | terminates the old session, then publishes one of the same identity |
| SessionServer.Server.CleanupTombstones | server/src/store.ts:281-288 | exactly the tombstones whose time is over go |
| SessionServer.Server.RunCleanupTick | server/src/cleanup.ts:13-111 | purges what is expired or idle, spent invitations and old tombstones |
| SessionChannels.EveryRunIsSound | server/src/session-lifecycle.ts:62-127 | over every run, frames on closing and superseded sockets included, channels, sessions, sockets and the socket index agree |
| SessionChannels.StepSound | server/src/ws.ts:447-529 | every event of every handler keeps that agreement |
| SessionChannels.TerminateIsIdempotent | server/src/session-lifecycle.ts:62-73 | terminating again changes nothing but when a preserved session was last seen |
| SessionChannels.LateCloseIsHarmless | server/src/ws.ts:511-529 | the late close of a superseded socket leaves everything but its own entries alone |
| SessionChannels.JoinKeepsChannelsIff | server/src/ws.ts:499-579 | a JOIN frame keeps the channel sets right if and only if its session is closed as expired, or is live and has a socket |
| SessionChannels.LateJoinWithoutSocket | server/src/ws.ts:467-529 | superseding a socket, closing the new one and a JOIN on the old one seat a live session without a socket |
| SessionChannels.LateJoinAfterRelease | server/src/ws.ts:499-579 | releasing a session and a JOIN on its socket seat a session that is not in the map |
| SessionProofs.IndexIsExact | server/src/store.ts:53-124 | over every run the index maps exactly the live sessions' current proofs, and none is tombstoned |
| SessionProofs.RetiredForGood | server/src/store.ts:69-115 | a retired proof never authenticates again and is charged to its owner until its tombstone expires |
| SessionProofs.ResolvesIffCurrent | server/src/store.ts:87-115 | a proof resolves to a session if and only if it is that live unexpired session's current one |
| SessionProofs.ReRegisterProven | server/src/http.ts:494-547 | a consumed proof is retired and charged to the node it belonged to |
| SessionProofs.RenewProven | server/src/store.ts:118-124 | a rotated proof is retired and charged to its node |
| SessionProofs.TerminateProven | server/src/session-lifecycle.ts:112-117 | an evicted session's proof is retired |
| SessionAdmission.RacingRegistersAgree | server/src/http.ts:242-412 | over all interleavings live sessions of a node share one identity and the map stays within its cap |
| SessionAdmission.NewcomersCarryTheirIdentity | server/src/http.ts:300-412 | a published session carries the supplied or inherited identity, and nothing else publishes |
| SessionAdmission.VerifiedAdmitted | server/src/http.ts:242-331 | resuming after the verification keeps every admission invariant |
| SessionAdmission.ReRegisterAdmitted | server/src/http.ts:494-547 | replacing a session moves neither bound |
| SessionAdmission.EachGrantCommitsOnce | server/src/http.ts:374-386 | over every run a grant commits at most one session, of the identity it was made out to |
| SessionAdmission.RedeemLedgered | server/src/http.ts:908-966 | redeeming mints at most one grant for each invitation |
| SessionIpCap.CapExceededIff | server/src/ws.ts:467-484 | a step takes an address past its cap if and only if it is an AUTH frame that moves a session there from another address while the cap is reached |
| SessionIpCap.MovingInExceedsTheCap | server/src/ws.ts:467-484 | a run in which it happens |
| SessionRoster.RosterReplay | server/src/ws.ts:550-579 | replaying a member's frames gives exactly its co-members mutually unblocked at the meeting that have not blocked it since |
| SessionRoster.OneOfTwoCalls | server/src/ws.ts:563-575 | of two members that see each other exactly the later one is to initiate |
| SessionRoster.LeaveRostered | server/src/session-lifecycle.ts:77-97 | leaving keeps every other member's roster right |
| SessionRoster.JoinRostered | server/src/ws.ts:550-579 | joining keeps every roster right, the newcomer's included if it joined on an open socket |
| SessionRoster.BlockRostered | server/src/ws.ts:642-655 | blocking keeps every roster right |
| SessionRoster.MetIffUnblocked | server/src/ws.ts:562-564 | two members have met exactly if neither had blocked the other |
| RateLimit.RateLimiter.CheckRateLimit | server/src/ratelimit.ts:12-33 | in-place compaction and the decision |
| RateLimit.RateLimiter.CleanupRateLimitWindows | server/src/ratelimit.ts:35-44 | the sweep forgets exactly the idle keys |
| RateLimit.CompactionAnswers | server/src/ratelimit.ts:12-44 | what compaction and sweeping leave answers for the whole history |
| RateLimit.DecisionRefinesHistory | server/src/ratelimit.ts:12-33 | each decision is the full history's, with one exact exception for limits below one |
| RateLimit.NoWindowExceedsLimit | server/src/ratelimit.ts:12-33 | no window of the key's length admits more than the limit |
| RateLimit.LongerWindowsAreForgotten | server/src/ratelimit.ts:35-44 | the bound on window lengths is exact: any longer one admits too many |
| RateBucket.TokenBucket.TakeFrame | server/src/ws.ts:243-253 | refill, cap and take |
| RateBucket.TokenBucket.Violations | server/src/ws.ts:255-266 | the violations still inside their window |
| RateBucket.BucketBoundsEveryInterval | server/src/ws.ts:235-253 | frames accepted in any interval number at most the burst plus the rate times its length |
| RateBucket.NothingRefusedIffConforming | server/src/ws.ts:235-253 | a stream is never refused if and only if it meets that bound on every interval |
| RateBucket.ViolationsAreExact | server/src/ws.ts:255-266 | pruning never changes how many violations are counted |
| ScryptSemaphore.Semaphore.AcquireScryptSlot | server/src/store.ts:377-386 | grants, queues or refuses |
| ScryptSemaphore.Semaphore.ReleaseScryptSlot | server/src/store.ts:388-392 | hands the slot to the first waiter or frees it |
| ScryptSemaphore.BoundsHold | server/src/store.ts:374-392 | over every run holders and queue stay within their bounds, and a queue means all slots are held |
| ScryptSemaphore.ServedInOrderOfArrival | server/src/store.ts:381-392 | waiters are served in order and nobody overtakes them |
| ScryptSemaphore.HoldersAreCounted | server/src/store.ts:374-392 | the slot holders number exactly the counter |
| ScryptSemaphore.WaiterIsServed | server/src/store.ts:388-392 | the waiter at position k holds a slot after k + 1 releases |
| ChunkBitmap.BitmapSet | client/src/lib/chunk-bitmap.ts:42-51 | sets one bit, and reports whether it flipped |
| ChunkBitmap.BitmapHas | client/src/lib/chunk-bitmap.ts:53-60 | reads exactly the bit of the chunk, and nothing outside the buffer |
| ChunkBitmap.BitmapPopcount | client/src/lib/chunk-bitmap.ts:63-73 | the bit-parallel count is the number of set bits |
| ChunkBitmap.MarkReceived | client/src/lib/transfer/receive-engine.ts:703-703 | the counter raised on each flip stays the number of set bits |
| ChunkBitmap.BitmapFromIndexes | client/src/lib/chunk-bitmap.ts:80-87 | sets exactly the indexes that land inside the padded buffer |
| ChunkRanges.BitmapToIndexes | client/src/lib/chunk-bitmap.ts:95-108 | lists exactly the set bits below the count, ascending |
| ChunkRanges.BitmapToRanges | client/src/lib/chunk-bitmap.ts:119-135 | the scan returns the canonical list of the set bits |
| ChunkRanges.ValidateAndNormalizeRanges | client/src/lib/chunk-bitmap.ts:151-191 | sort and merge return the canonical list of the accepted ranges clipped to the count |
| ChunkRanges.RangesToBitmap | client/src/lib/chunk-bitmap.ts:196-207 | sets exactly the covered bits |
| ChunkRanges.SetToRanges | client/src/lib/chunk-bitmap.ts:214-233 | the sorted-set scan returns the canonical list of the set |
| ChunkRanges.RunsAreCanonical | client/src/lib/chunk-bitmap.ts:119-135 | the runs of a set are ascending, separated by gaps, and cover exactly it |
| ChunkRanges.CanonicalIsUnique | client/src/lib/chunk-bitmap.ts:137-191 | equal coverage gives equal lists |
| ChunkRanges.RangesSurviveTheBitmap | client/src/lib/chunk-bitmap.ts:119-208 | ranges to bitmap and back is normalisation |
| ChunkRanges.BitmapSurvivesTheRanges | client/src/lib/chunk-bitmap.ts:156-208 | bitmap to ranges and back restores every bit below the count if and only if there are at most 4096 runs |
| ChunkRanges.EncodersAgree | client/src/lib/chunk-bitmap.ts:80-233 | the two encoders agree if and only if no index wraps onto a member |
| ChunkRanges.HugeCountsLoseRanges | client/src/lib/chunk-bitmap.ts:32-51 | at counts past 2^32 the round trip fails, with an input |
| ChunkRanges.NormalFormIsNoLonger | client/src/lib/chunk-bitmap.ts:151-191 | normalising never lengthens a list |
| ChunkRanges.NormalFormIsStable | client/src/lib/chunk-bitmap.ts:151-191 | normalising twice is normalising once |
| TransferProtocol.WindowsTileTheFile | client/src/lib/transfer/protocol.ts:191-199 | a byte lies in a chunk's window exactly if it is a byte of the file and that is its chunk |
| TransferProtocol.ChunksCarryTheFile | client/src/lib/transfer/protocol.ts:191-199 | the chunk lengths add up to the file |
| TransferProtocol.AcceptedGeometryIsBounded | client/src/lib/transfer/protocol.ts:234-305 | accepted geometry is that of the file size and fits the index field |
| TransferProtocol.EncodeChunkFrame | client/src/lib/transfer/protocol.ts:329-343 | the buffer writes produce the frame |
| TransferProtocol.DecodeInvertsEncode | client/src/lib/transfer/protocol.ts:329-388 | decoding an encoded frame gives its fields back, if and only if they fit |
| TransferProtocol.EncodeInvertsDecode | client/src/lib/transfer/protocol.ts:329-388 | every accepted buffer encodes to itself |
| TransferProtocol.ChunkAad | client/src/lib/crypto.ts:168-186 | the offset writes produce the length-prefixed data |
| TransferProtocol.AadIsInjective | client/src/lib/crypto.ts:168-186 | equal additional data means all five fields are equal |
| TransferProtocol.AssembleChunkIv | client/src/lib/crypto.ts:143-148 | prefix and big-endian index, as in section 8.2.1 of NIST SP 800-38D |
| TransferProtocol.IvsAreUnique | client/src/lib/crypto.ts:143-148 | equal IVs mean equal prefix and index |
| TransferProtocol.PeerVersions.Set | client/src/lib/transfer/protocol.ts:54-64 | keeps the highest version seen |
| TransferProtocol.PeerVersions.ClearVersion | client/src/lib/transfer/protocol.ts:75-78 | forgets one peer, or all of them if none or an empty one is named |
| TransferProtocol.NeverDowngraded | client/src/lib/transfer/protocol.ts:54-78 | between two clears neither a peer's version nor the one agreed on with it goes down |
| TransferProtocol.BestSinceCleared | client/src/lib/transfer/protocol.ts:54-78 | over every run the recorded version is exactly the best one announced since the peer was last cleared |

## Left out

What the code does and nearby readings of it would get wrong:

- A renewal near expiry overwrites the active entry without settling it, a rollback deletes unsettled, and the kill-switch sweep may delete an entry issued after it settled the others: `TurnSettlement.RenewalForgets`, `TurnRemoval.SweepRemovalConservesIff` and `TurnLateIssue.LateIssueIsLost` say exactly what is lost and show a run.
- The reader refuses a whole file for one counter of the month, one credential or one ledger row out of bounds. Issuance is then off, but the deny list is empty when a complete monthly total turns it on again, so a ban can be lost: `TurnReload.AcceptedIff` and `TurnReload.DenialSurvivesIff` give the condition and `TurnLostBan.TheBanIsLost` a run.
- From a file it accepts, the reader drops denials and history rows that are out of bounds and credentials under an over-long identifier or without an address, and leaves out or replaces other over-long texts. An address of more than 64 characters therefore starts its hourly issue count from zero after a restart: `TurnReload.IssuancesSurviveIff`.
- A usage poll records confirmed bytes, and the sweep deletes entries, without raising the dirty flag at once. The crash theorem does not need the flag: it holds whichever steps raise it.
- When the snapshot failed to load, the strict flush of both files skips the TURN file and succeeds. The abuse path is not reachable then, because nothing is active before a complete total has been read.
- The first call of an unseen key is admitted even with a limit below one, and a window longer than 120001 ms can be cut short by the sweep.
- Shifts wrap at 2^32, so a bitmap for more chunks than that is too short and an index at or past it lands on another chunk. No accepted file has that many chunks.
- AUTH moves a session to the address of its socket, so the cap on sessions of one IP is checked at admission and is not an invariant: `SessionIpCap.CapExceededIff` says exactly when a step exceeds it, and `SessionIpCap.MovingInExceedsTheCap` shows a run.
- The message handler does not look whether its session is still in the map or still has a socket, so a JOIN frame that arrives on an old socket can seat a session that is gone: `SessionChannels.JoinKeepsChannelsIff` gives the exact condition. The runs of the model contain every other frame on closing and superseded sockets, and every JOIN frame that meets the condition.

Contracts that claim less than a first reading of the code might promise:

- SessionRoster.RosterReplay: claims nothing for a member that may have missed a frame since it joined, because its socket was closing or it joined on an old one.
- SessionChannels.EveryRunIsSound: runs serve no JOIN frame for a session that was evicted or has lost its socket, because such a frame breaks the channel sets, as `SessionChannels.JoinKeepsChannelsIff` shows.
- RateLimit.NoWindowExceedsLimit: needs a limit of at least one and one window of at most 120001 ms for each key, because the code admits more otherwise, as `RateLimit.LongerWindowsAreForgotten` shows.
- FlushChain.RunsAreSound: does not cover a change made without raising the dirty flag, because such a change is lost if nothing is flushed after it; strict flushes are covered either way.
- SessionServer.Server.ReRegisterWith: covers the request once it is admitted, because attempt locks and node freezes are not modelled.
- SessionServer.Server.RunCleanupTick: covers sessions, invitations and tombstones, because locks, freezes, reports and rate windows are other tables; the rate windows have their own sweep in `RateLimit`.
- TurnReload.CrashStillDenies: needs a ban duration above zero, because no denial is written without one, and a ban that has not run out at the crash, because nothing keeps it after that.
- TurnAccounting.NoHourExceedsTheCap: needs restored history rows that respect the cap themselves, which the same lemma shows of every history the server writes.

What the model assumes or abbreviates:

- Random identifiers, proofs and grants are fresh, the clock never runs backwards, and a completed file write replaces the file at once.
- HMAC, scrypt, AES-GCM and ECDH are not modelled: an identity hash stands for the passcode, and a verification answers correctly or is refused when busy.
- A bearer token is represented by the session it resolves to; the rotation of tokens and the 4001 and 4002 distinction are not modelled.
- Brute-force locks and node freezes decide whether a request is admitted, which the environment chooses; their counters are not modelled.
- A provider call is one answered step; its text, its deadline and retries inside it are not modelled.
- The reasons of denials and the provider's error texts are reduced to what later code reads. A number in a file is a whole number, a fraction, or not finite.
- `RollMonth` compares month numbers where the source compares month keys; `TurnFile.MonthKeyIsInjective` shows that this is the same for years of four digits.
- The lock file has its own write chain of the same shape, which is not modelled a second time; its failure is part of a strict flush answering that it failed.
- Credential records and session records are values in a table indexed by identity, edited in place by the two classes; aliasing between objects is represented by that identity.

What would only add easier members:

- Signal forwarding between peers, pending-authentication counters, backpressure and the slow-consumer timers.
- Reports, transfer statistics, activity broadcasts, public and operator status.
- File-name sanitising, notification text, React pages, hooks, sound and service worker.
- WebRTC, ICE and STUN handling, NAT probing, IndexedDB and OPFS storage, Web Locks.
- The send and receive engines and the network controllers are not part of this model, except for the line that counts received chunks.
- Express, schema and origin checks, environment parsing and start-up order.
