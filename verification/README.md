# A Dafny model of the HaaS runtime's state protocols

HaaS runs coding harnesses behind a session API; a manager process keeps conversations, their follow-up
queue and their history. This project models the parts of that system whose correctness is a matter of
protocol rather than of plumbing, and proves what they promise over every input, every interleaving or every
run. `dafny verify dfyconfig.toml` checks all of it with Dafny 4.11.

| file | component |
|---|---|
| `LeaseCells.dfy`, `Leases.dfy` | session leases with fencing tokens, in memory and in SQLite rows, over all keys |
| `SessionRows.dfy` | session records in memory and in SQLite rows, over all keys |
| `Sessions.dfy`, `SessionSafety.dfy`, `SessionRestarts.dfy`, `SessionOrder.dfy`, `SessionProgress.dfy` | turn driver, cancel, pause, continue, read-back, policy update and restart as one transition system |
| `CommandQueue.dfy`, `QueueSafety.dfy`, `QueueProgress.dfy`, `CommandTables.dfy` | accepted conversation commands and their follow-up queue |
| `Worker.dfy` | the crash-safe private worker and its receipts |
| `Compaction.dfy` | compaction of long histories |
| `NamespaceTools.dfy` | flattening and restoring namespaced tools in the model proxy |
| `RuntimeTokens.dfy` | runtime tokens that carry their session id |
| `EventLog.dfy` | the session event log, replay and paging |
| `Idempotency.dfy` | idempotency reservations |
| `Artifacts.dfy` | the artifact store |
| `Policies.dfy` | compilation of layered policies |
| `Text.dfy`, `Wrappers.dfy` | bytes, `str.split`, `" ".join`, `Option` and `Result` |

How the source is represented:

- A protocol of several actors is a transition system. Each step is one stretch of code without a suspension
  point, and every clock reading is a parameter of its step, so lease expiry can fall anywhere.
- A store that updates its tables in place is a class. Each method's contract names the function that gives
  the new state from the old one, and the theorems are about those functions and their runs.
- Clocks, random ids, SHA-256, HMAC, UTF-8, JSON text, path resolution, URL matching, the summarizer and the
  executor are parameters. What is needed of them is a named predicate: `Worker.Lawful` (JSON is one line and
  parses back, digest and MAC do not collide), `RuntimeTokens.Lawful` (UTF-8 decodes what it encodes),
  `Policies.Lawful` (path containment is a preorder), and "this id was not used before" where the source draws
  a UUID.

## What does not hold as stated

Each of these has a lemma with a concrete input or a run from the empty state, and a lemma that says exactly
when the promise holds.

- A decided invocation status can come back as `running`. The lease is checked twice around a terminal, a
  failure or a takeover, and once more when a driver unwinds; when the last check fails, the status is decided
  in memory only, and a SQLite restart loses it (`FailedMarkLostOnRestart`, `FailureLostOnRestart`,
  `ReadbackLostOnRestart`; `DecidedSurvivesRestartIff` for every step that decides a status).
- The applied policy revision can go down at a restart. A terminal applies a pending update to the stored record
  in place before its second lease check, and a failed check rolls back only the rows
  (`AppliedRevisionLostOnRestart`; `AppliedSurvivesRestartIff`, `AppliedSurvivesRun`).
- A terminal does not always leave its mark on the session record. When an update waits in the stored record and
  that is not the driver's own object, the record keeps its control state: a pause that took effect is not
  resumable (`PauseLostToUpdate`; `TerminalTaken`, `PauseResumableIff`), and a completed run leaves the record
  saying running (`UpdatedRunLeavesRunning`). A further update then waits for a run that is not there, every start
  waits for the update, and the session is stuck for good (`SecondUpdateSticks`; `StuckAcrossRestart`).
- A refused start does not always give the lease back: a first start with an invalid policy keeps it for its time
  to live (`RefusedStartLease` has every case).
- A whole session record can be gone after a restart, with every policy update accepted for it. The keys
  `("a|b", "c", "s")` and `("a", "b|c", "s")` write one row, and only the later writer is loaded
  (`SharedRowLosesSession`, `UpdateLostWithRow`). A session survives exactly when its own key wrote its row last
  and it has no empty name; a bar alone is harmless (`SurvivesReloadIff`, `SessionSurvivesRestartIff`,
  `LeftAloneSurvives`; `RowsKeptIff` and `PolicyUpdatesSurvive` over whole runs).
- The event log is not always in token order. Within one process it is, but a restart that loses the token issues
  small tokens again (`OrderLostOnRestart`: event tokens 2, 1). `OrderSurvivesRestartIff` gives the condition on
  the loaded token, and `KeptTokensKeepOrder` and `KeptLeaseKeepsOrder` cover restarts that bring it back. At most
  one terminal per invocation, decided statuses and continuation chains do not depend on it: those theorems are
  for restarts that load any lease at all.
- A driver whose lease was superseded can still change the stored session record, by marking it idle in place
  (`FencedDriverIdlesRecord`; the condition is in `FencedDriverIsHarmless`).
- Lease tokens are not always kept by a SQLite reopen. A key with a bar in its app or user name is loaded under
  another key (`BarLosesToken`), and a bar-free key can share its rows with such a key, which then overwrites
  them (`SharedRowLosesToken`). `ReopenKeepsTokenIff` gives the condition on the rows, `LastWriterKeepsToken`
  and `RivalWriteIsLoaded` say who wrote them last. With reopens the token theorems hold for every bar-free key
  that no other acquiring key shares its rows with.
- A waiting command can lose its row. Restoring a dispatch that was already checkpointed leaves its execution
  bound, and ending that execution then deletes the row (`RestoredCommandLosesRow`; `RestoreUnmarkedIff`,
  `ExecutionTerminalLinkedIff`).
- An uncertain dispatch is not always put back at the head of the queue on startup, as the comment at
  manager/coworker/conversation_commands.py:183-185 says (`ReopenCanMissHead`; `ReopenRestoresHeadIff`).
- Two live workers can execute one execution id twice: the receipt is looked for before the marker is created
  (`TwoWorkersExecuteTwice`; `AtMostOnceIff`).
- Without user messages, a history that fits entirely is cut at its last step, because index 0 reads as "no
  boundary" (`FittingStepDropped`; `StepPickIff`).
- The publish quota is not looked at when a publish changes nothing (`UnchangedPublishBeyondQuota`;
  `PublishQuotaIff`), and a path whose listed file is metadata only does not read back (`MetadataOnlyPublish`;
  `PublishedBytesIff`).
- The content ceiling of the artifact store bounds nothing: only listed files hold content, and listed files
  are never evicted (`CeilingExceeded`; `NothingToEvict`, `CeilingKeptIff`, `CeilingKeptByPublishIff`).
- The first non-empty network allow-list can add URLs, and the first non-empty list of writable roots can add
  paths outside the workspace root (`PrivateAddressAdded`, `OutsideRootAdded`; `FirstListAddsIff`,
  `FirstRootsAddIff`).

## Model

| member | source | states |
|---|---|---|
| Leases.KeyRoundTrip | haas/stores/sqlite.py:187-258 | a session key comes back from its row key exactly when app and user names have no bar |
| Leases.DecodeEncode | haas/stores/sqlite.py:187-258 | a row key that loads re-encodes to itself, so distinct rows load under distinct keys |
| Leases.EncodeInjective | haas/stores/sqlite.py:492-513 | bar-free keys never share a row |
| Leases.ReopenIsIdentity | haas/stores/sqlite.py:187-258 | loading rows that mirror a bar-free cell gives that cell back, in any row order |
| Leases.BarFreeGuards | haas/stores/sqlite.py:492-513 | in a run whose acquiring keys are all bar-free, no other key acquires under a bar-free key's rows |
| Leases.RowsStayOk | haas/stores/sqlite.py:187-258 | while no other key acquires under them, a bar-free key's rows mirror its cell through every operation of every key and every reopen |
| Leases.TokensOverRun | haas/stores/memory.py:812-849 | over any run of all keys, without reopens or with them for a bar-free key whose rows no other key acquires under, the token never goes down, a live lease carries it, and guarded appends carry non-decreasing tokens |
| Leases.AcquireIssuesFreshToken | haas/stores/memory.py:812-823 | under the same condition a successful acquire issues a token above every earlier one of the key |
| Leases.OnePasser | haas/stores/memory.py:831-840 | under the same condition at most one holder and token pass at any moment, and the token is the newest |
| Leases.SupersededNeverPasses | haas/stores/memory.py:831-840 | under the same condition a token below the newest never passes again |
| Leases.FencedForever | haas/stores/memory.py:825-849 | under the same condition, with a clock that does not go back, a holder and token that failed once fail for good |
| Leases.AcquiredRuns | haas/stores/memory.py:812-823 | an acquire is granted exactly when no other holder's lease is running; then for exactly its time to live its holder and token pass, nothing else does, and every other holder is refused |
| Leases.RenewalExtends | haas/stores/memory.py:825-829 | a renewal by the holder and token of a running lease makes them pass exactly until now plus the time to live; any other changes nothing |
| Leases.ReleaseFrees | haas/stores/memory.py:842-849 | a release by the holder, with the lease's token or none, frees the key at once and keeps the counter; any other changes nothing |
| Leases.LeaseExcludes | haas/stores/memory.py:812-849 | mutual exclusion: until it runs out, no run of operations by others, on this key or any other, touches a lease |
| Leases.ReopenKeepsTokenIff | haas/stores/sqlite.py:187-258 | after any run of any keys, a reopen in whatever row order keeps an issued token exactly when the key is bar-free and its rows carry that token |
| Leases.LastWriterKeepsToken | haas/stores/sqlite.py:492-513 | the rows carry it when the key acquired and no other key touched them since, whatever happened before |
| Leases.RivalWriteIsLoaded | haas/stores/sqlite.py:492-497 | after another key acquired under the same rows, a reopen gives that key's lease and token, kept only if the numbers agree |
| Leases.SharedRowLosesToken | haas/stores/sqlite.py:492-497 | a run in which a bar-free key loses token 2 to a key with a bar, and token 1 passes again |
| Leases.BarLosesToken | haas/stores/sqlite.py:187-258 | a key with a bar starts counting over after a reopen |
| Leases.LeaseStore.constructor | haas/stores/sqlite.py:49-102 | a new store has no lease and no token for any key |
| Leases.LeaseStore.AcquireLease | haas/stores/sqlite.py:492-497 | one acquire step as every key sees it, refused exactly on another holder's running lease, and the lease it returns |
| Leases.LeaseStore.AssertLease | haas/stores/memory.py:831-840 | succeeds exactly when holder and token match the newest, unexpired lease |
| Leases.LeaseStore.RenewLease | haas/stores/sqlite.py:499-503 | one renew step as every key sees it, for exactly a passing lease, and the extended lease it returns |
| Leases.LeaseStore.ReleaseLease | haas/stores/sqlite.py:505-513 | one release step as every key sees it: the holder's own lease, for the token it owns when one is given |
| Leases.LeaseStore.Reopen | haas/stores/sqlite.py:187-258 | rebuilding both dictionaries row by row, in any order, gives each key the cell its rows say |
| SessionSafety.NextKeeps | haas/sessions.py:314-702 | every step of every actor, another key's write of the session's row and a restart that loads any lease keep the invariant; no written status, event, frozen policy or link is undone, and no revision unless a restart finds the session's row overwritten |
| SessionSafety.RunKeeps | haas/sessions.py:314-702 | the invariant holds after every run, whatever its restarts load |
| SessionSafety.AtMostOneTerminal | haas/sessions.py:514-690 | over every interleaving with cancels, read-backs, expiries, takeovers and restarts, with the lease and the session record kept or lost, an invocation has at most one terminal event, and it names the invocation's status |
| SessionSafety.EventsFollowTokens | haas/sessions.py:692-729 | processes follow each other in the log, and the lease-guarded events of each process are in token order |
| SessionSafety.DecidedStaysDecided | haas/sessions.py:1015-1074 | a status that left running never changes while the process lives, a written one never at all, across any restart |
| SessionRestarts.DecidedSurvivesRestartIff | haas/sessions.py:514-690 | whichever step decides a status, it survives any restart exactly when the step's last lease check passed, and but for an unwinding driver that is exactly when it leaves an event |
| SessionRestarts.NextSettles | haas/sessions.py:314-702 | only a terminal, a failure, an unwinding driver or a takeover moves a status, written exactly when its last check passed |
| SessionRestarts.PersistSettles | haas/sessions.py:1015-1074 | a terminal write in SQLite is all of it, or the status in memory only |
| SessionRestarts.TerminalSettles | haas/sessions.py:1015-1074 | the same for a driver's terminal or failure |
| SessionRestarts.UnwindSettles | haas/sessions.py:664-690 | the same for a driver that unwinds |
| SessionRestarts.TakeOverSettles | haas/sessions.py:1253-1300 | the same for a cancel or read-back that takes the lease over |
| SessionRestarts.FailedMarkLostOnRestart | haas/sessions.py:664-690 | a run in which the failed mark of an unwinding driver is lost |
| SessionRestarts.FailureLostOnRestart | haas/sessions.py:898-924 | a run in which a failure terminal is lost |
| SessionRestarts.ReadbackLostOnRestart | haas/sessions.py:759-833 | a run in which a read-back's incomplete is lost |
| SessionRestarts.AheadIff | haas/sessions.py:1053-1064 | the applied revision in memory gets ahead of the session's own row exactly when a terminal is rolled back over a pending update |
| SessionRestarts.AppliedSurvivesRestartIff | haas/sessions.py:1053-1064 | a restart keeps the applied revision after a step exactly when the step did not roll a terminal back over a pending update and the session's row holds its own record |
| SessionRestarts.AppliedSurvivesRun | haas/sessions.py:1053-1064 | over any run without such a rollback, a restart keeps the applied revision exactly when the session's row then holds its own record |
| SessionRestarts.AppliedRevisionLostOnRestart | haas/sessions.py:1053-1064 | a run in which revision 2 is applied and a restart brings revision 1 back |
| SessionRestarts.SessionSurvivesRestartIff | haas/stores/sqlite.py:187-258 | a session survives a restart exactly when its own key wrote its row last and has no empty name; otherwise the policies accepted for it go with it |
| SessionRestarts.UpdateLostWithRow | haas/sessions.py:326-331 | a run in which another key's record takes the row, a restart loses both revisions, and the next run starts at revision 1 |
| SessionRows.RunRowsOk | haas/stores/sqlite.py:316-328 | after any run of all keys, each row holds exactly its last writer's record, the one that writer has in memory |
| SessionRows.SurvivesReloadIff | haas/stores/sqlite.py:187-258 | after any run of all keys, a session comes back from a reload, as it was, exactly when its own key wrote its row last and none of its names is empty |
| SessionRows.LeftAloneSurvives | haas/stores/sqlite.py:237-238 | whatever bars a key has, a session whose row only its own key touches is never changed by a reload |
| SessionRows.BarFreeKeysLeaveAlone | haas/stores/sqlite.py:316-328 | bar-free keys leave each other's rows alone |
| SessionRows.SharedRowLosesSession | haas/stores/sqlite.py:316-328 | two keys that write one row, and the earlier session is gone after a reload |
| SessionRows.SessionTable.constructor | haas/stores/memory.py:438-482 | a new store has no session and no row |
| SessionRows.SessionTable.PutSession | haas/stores/sqlite.py:316-328 | the record goes into memory under its key and into the row of its joined key, nothing else changes |
| SessionRows.SessionTable.DeleteSession | haas/stores/sqlite.py:360-379 | the record leaves memory and its joined key's row goes, whoever wrote it |
| SessionRows.SessionTable.ReloadSessions | haas/stores/sqlite.py:187-238 | memory holds exactly the valid records of the rows, under the keys they carry |
| SessionOrder.OrderSurvivesRestartIff | haas/stores/sqlite.py:248-256 | after a restart every continuation in that process keeps the log in token order exactly when the loaded token plus one is at least the last event's, or the session is stuck and gets no event at all |
| SessionOrder.StuckForGood | haas/sessions.py:326-345 | a session with nothing running or resumable whose record refuses every start gets no event in that process |
| SessionOrder.GoesOn | haas/sessions.py:314-388 | any other session can get an event under the next token after a restart |
| SessionOrder.OrderOverRun | haas/sessions.py:692-729 | the log of a whole run is in token order when each restart loads a token no more than one below the last event's |
| SessionOrder.KeptTokensKeepOrder | haas/sessions.py:692-729 | the log of every run whose restarts bring the token back is in token order across processes |
| SessionOrder.KeptLeaseKeepsOrder | haas/stores/sqlite.py:248-256 | a restart of a bar-free key whose rows carry its token keeps that token and the order |
| SessionOrder.OrderLostOnRestart | haas/stores/sqlite.py:248-256 | a run whose event tokens are 2 and then 1 |
| SessionRestarts.FencedDriverIdlesRecord | haas/sessions.py:680-690 | a run in which a superseded driver marks the stored record idle |
| SessionSafety.FencedDriverIsHarmless | haas/sessions.py:664-729 | a driver whose lease was superseded changes no event, no disk record, no lease, no other invocation and not which record is stored, and changes that record's contents exactly when it marks its own object, the stored one, idle on leaving |
| SessionSafety.TakenOverKeeps | haas/sessions.py:1253-1300 | cancel and read-back without a live driver, under their own lease, keep every invariant |
| SessionSafety.PersistKeeps | haas/sessions.py:1015-1074 | writing a terminal, committed or fenced between its two lease checks, keeps every invariant |
| SessionSafety.PolicyUpdatesSurvive | haas/sessions.py:190-213 | accepted updates stay accepted, and neither revision on disk goes down, while each restart finds the session's own row, and a new era begins exactly otherwise; in one process neither revision goes down; the stored record has the last update accepted for it; each frozen policy is the one accepted in its era under its revision and never changes |
| SessionSafety.RowsKeptIff | haas/stores/sqlite.py:187-258 | a run keeps the session's era exactly when every restart finds the session's own record in its row |
| SessionSafety.RestartedKeeps | haas/stores/sqlite.py:187-258 | a restart keeps the invariant whatever lease it loads and whether or not it finds the session record |
| SessionSafety.OverwriteKeeps | haas/stores/sqlite.py:316-328 | another key's write of the session's row keeps the invariant |
| SessionSafety.PolicyUpdatedKeeps | haas/sessions.py:190-213 | an update, accepted or not, keeps every invariant |
| SessionProgress.UpdateTaken | haas/sessions.py:190-213 | an update is accepted exactly for an existing session at its desired revision with a valid delta that gives some domain; then the desired policy has the delta's value in each given domain and the old one in every other, in memory and on disk, applied at once exactly when the record does not say that a run is going on |
| SessionSafety.StartFreezesNewestPolicy | haas/sessions.py:326-388 | no run starts while an update waits, and a new invocation freezes the newest revision |
| SessionSafety.ContinuationsFormChains | haas/sessions.py:1151-1188 | continuation links point back and no two invocations continue the same one, across any restart, and in one process the source is interrupted |
| SessionProgress.StartTaken | haas/sessions.py:314-388 | a start goes through exactly when its lease is granted, no update waits and the record is paused just when the start continues what it offers; it adds one invocation, linked to its source, under the next token, with the applied policy |
| SessionProgress.RefusedStartLease | haas/sessions.py:314-350 | what a refused start leaves of the lease, in every case |
| SessionProgress.RenewTaken | haas/sessions.py:704-710 | a driver's renewal under its lease makes it pass until now plus the time to live; any other changes nothing |
| SessionProgress.StoreRefTaken | haas/sessions.py:874-888 | under the lease the driver's own record is stored with the stored policies, without it the driver leaves |
| SessionProgress.RegisterTaken | haas/sessions.py:488-512 | registering claims the invocation with its status written and no intent against it |
| SessionProgress.EmitTaken | haas/sessions.py:712-729 | a streamed event is appended exactly under the lease, and merged into the record if the lease still passes then |
| SessionProgress.LeaveTaken | haas/sessions.py:664-676 | leaving gives up the claim and changes nothing else |
| SessionProgress.TouchTaken | haas/sessions.py:172-177 | storing the record as it is makes its row its own again |
| SessionProgress.PersistWrites | haas/sessions.py:1015-1074 | a terminal write that commits: status, event, applied update, and a record that says how the invocation ended unless an update waited in another object |
| SessionProgress.TerminalTaken | haas/sessions.py:514-580 | the same for a driver's terminal, with the status that a cancel overtaking a pause decides |
| SessionProgress.FailTaken | haas/sessions.py:898-924 | a failure before any terminal is a failed terminal under the lease; after one, or without the lease, the driver leaves |
| SessionProgress.UnwindTaken | haas/sessions.py:664-690 | a driver that unwinds without a terminal fails a running invocation, writes it exactly under its lease, and frees the lease that is still its own |
| SessionProgress.TakeOverTaken | haas/sessions.py:759-833 | a read-back or cancel that is granted and passes its checks ends the invocation as incomplete or cancelled, idles the record, applies a waiting update and frees the lease |
| SessionProgress.PauseTaken | haas/sessions.py:1076-1101 | a pause marks exactly a claimed running invocation with no cancel against it, and the record says pausing |
| SessionProgress.CancelTaken | haas/sessions.py:1211-1222 | a cancel is asked for exactly on a claimed running invocation, overrides a pause, and the record says cancelling |
| SessionProgress.CancelPausedTaken | haas/sessions.py:1195-1208 | cancelling a paused invocation revokes exactly its offer |
| SessionProgress.ControlFailTaken | haas/sessions.py:1113-1124 | a dispatch that fails withdraws its intent, and the record says running again if it still says what was marked |
| SessionProgress.AskTaken | haas/sessions.py:1151-1188 | continuing is granted exactly for an interrupted invocation that the record offers |
| SessionProgress.CleanExit | haas/sessions.py:664-690 | the driver of a written terminal frees its lease and leaves the record as it is |
| SessionProgress.PauseResumableIff | haas/sessions.py:1044-1064 | a pause that took effect leaves the session resumable at its invocation exactly when no update waits in a record that is not the driver's own object |
| SessionProgress.PauseTakesEffect | haas/sessions.py:1076-1188 | from every state in which a driver streams under its lease and no update waits, pausing it to its end leaves the session paused and resumable there |
| SessionProgress.PauseThenContinue | haas/sessions.py:1151-1188 | and whoever continues it then gets a new invocation linked to it, with the policy in force |
| SessionProgress.PauseLostToUpdate | haas/sessions.py:1053-1064 | a run that is updated, paused and interrupted, and is not resumable |
| SessionProgress.UpdatedRunLeavesRunning | haas/sessions.py:1053-1064 | a run that is updated and completes, and leaves a record that says running |
| SessionProgress.SecondUpdateSticks | haas/sessions.py:207-213 | a second update after it leaves the session stuck |
| SessionProgress.StuckAcrossRestart | haas/sessions.py:332-342 | a stuck session gets no event again, in this process or, once all is on disk, after a restart |
| SessionSafety.OnlyStartsAddInvocations | haas/sessions.py:326-388 | no step but a start creates an invocation |
| CommandQueue.Ordered | manager/coworker/conversation_commands.py:769-796 | the listing by position, creation time and id is sorted and holds exactly the given rows |
| CommandQueue.SortedUnique | manager/coworker/conversation_commands.py:769-796 | the sorted listing of a set of rows is unique |
| CommandQueue.NextPosition | manager/coworker/conversation_commands.py:308-315 | the next position is above every row and one above some row, or 1 |
| CommandQueue.Renumber | manager/coworker/conversation_commands.py:852-872 | listed rows get consecutive positions, a changed row a higher revision, other rows stay |
| QueueSafety.NormalizeKeepsQueue | manager/coworker/conversation_commands.py:852-872 | normalization leaves the queue as it is and numbers it 1 to n |
| QueueSafety.AcceptAppends | manager/coworker/conversation_commands.py:308-331 | accepting a queued command appends it |
| QueueSafety.RecoverAppends | manager/coworker/conversation_commands.py:512-570 | recovering an uncheckpointed command appends it |
| QueueSafety.ClaimPopsHead | manager/coworker/conversation_commands.py:769-830 | claiming takes the head, unless paused or empty |
| QueueSafety.DeleteRemoves | manager/coworker/conversation_commands.py:929-1030 | delete and restore-to-draft remove the item and keep the rest in order, or change nothing |
| QueueSafety.MoveReinserts | manager/coworker/conversation_commands.py:1083-1140 | move is remove, then insert at the clamped index |
| QueueSafety.PrioritizeFronts | manager/coworker/conversation_commands.py:1032-1081 | send-now moves the item to the front |
| QueueSafety.TerminalKeepsQueue | manager/coworker/conversation_commands.py:572-598 | ending a turn leaves the queue as it was |
| QueueSafety.ExecutionTerminalKeepsQueue | manager/coworker/conversation_commands.py:600-628 | ending an execution leaves the queue as it was when no waiting command is bound to it |
| QueueSafety.ReopenQueue | manager/coworker/conversation_commands.py:183-222 | startup puts each uncertain dispatch back at its own place in the order |
| QueueSafety.PauseQueueOrder | manager/coworker/conversation_commands.py:667-697 | pausing with restore puts every dispatch back at its own place in the order |
| QueueSafety.ReopenKeepsOrder | manager/coworker/conversation_commands.py:183-222 | rows that were waiting keep their order among themselves |
| QueueSafety.ReopenRestoresHeadIff | manager/coworker/conversation_commands.py:183-222 | an uncertain dispatch becomes the head exactly when it still sorts before every row that waits or comes back with it |
| QueueSafety.ReopenCanMissHead | manager/coworker/conversation_commands.py:183-222 | a run from the empty store whose claimed item is second after a restart |
| QueueSafety.StepLinked | manager/coworker/conversation_commands.py:247-1140 | every transaction keeps commands and rows in agreement |
| QueueSafety.ExecutionTerminalLinkedIff | manager/coworker/conversation_commands.py:600-628 | ending an execution keeps them in agreement exactly when no waiting command is bound to it |
| QueueSafety.RestoreUnmarkedIff | manager/coworker/conversation_commands.py:667-697 | restoring dispatches leaves no checkpointed command waiting exactly when none of them is checkpointed |
| QueueSafety.RestoredCommandLosesRow | manager/coworker/conversation_commands.py:600-697 | a run from the empty store to a checkpointed dispatch that is restored, ends, and is left queued with no row |
| QueueSafety.StepGrows | manager/coworker/conversation_commands.py:247-1140 | every transaction keeps commands, ended ones ended, recorded edits, removed rows removed, and bumps the revision of any row it changes |
| QueueSafety.NoCommandLost | manager/coworker/conversation_commands.py:247-1140 | at every later point an accepted command is there with its payload, terminal stays terminal, and its rows are exactly what its disposition calls for |
| QueueSafety.RevisionPinsRow | manager/coworker/conversation_commands.py:832-872 | over a run the revision never goes down and equal revisions mean equal rows |
| QueueSafety.EditActsOnSnapshot | manager/coworker/conversation_commands.py:832-850 | an edit that goes ahead acts on exactly the row its snapshot showed |
| QueueSafety.RemovedStaysRemoved | manager/coworker/conversation_commands.py:929-1030 | a removed row never comes back under its id |
| QueueSafety.EditsApplyOnce | manager/coworker/conversation_commands.py:874-927 | repeating a recorded edit key at any later point changes nothing |
| QueueProgress.AcceptTaken | manager/coworker/conversation_commands.py:247-342 | a request is taken exactly when key and id are new and a busy conversation may queue it; the command and row it adds, field by field, and nothing else |
| QueueProgress.ClaimTaken | manager/coworker/conversation_commands.py:769-830 | unless paused or empty, exactly the head is dispatched and its command runs under the turn |
| QueueProgress.RecoverTaken | manager/coworker/conversation_commands.py:512-570 | one running, never queued, never checkpointed command of the turn, if any, waits at the end of a paused queue |
| QueueProgress.CheckpointBinds | manager/coworker/conversation_commands.py:382-433 | refused exactly when a running command of the turn has another execution and may not be rebound; otherwise exactly those commands are marked, bound to the given execution if rebinding is allowed or they had none, and else keep their own |
| QueueSafety.CheckpointChangesIff | manager/coworker/conversation_commands.py:413-433 | the update changes a row exactly when one of the turn is unmarked or bound otherwise |
| QueueProgress.ExecutionEnds | manager/coworker/conversation_commands.py:600-628 | ending an execution ends exactly the running commands bound to it, with the outcome |
| QueueProgress.ReboundTurnEnds | manager/coworker/conversation_commands.py:382-628 | a turn checkpointed under an execution with rebinding ends, and its row goes, when that execution ends, whatever it was bound to before |
| QueueProgress.TurnEnds | manager/coworker/conversation_commands.py:572-598 | ending a turn ends exactly its commands with the outcome, their rows go, and an emptied queue is no longer paused |
| QueueProgress.PauseTaken | manager/coworker/conversation_commands.py:667-697 | pausing records its reason, and with restore puts back exactly the dispatched rows and their commands |
| QueueProgress.ReopenTaken | manager/coworker/conversation_commands.py:183-222 | startup pauses the queue exactly when a dispatched command was never checkpointed, and puts back exactly those |
| QueueProgress.RemovalTaken | manager/coworker/conversation_commands.py:929-1030 | deleting or restoring an item happens exactly on the row that was shown and once per key; the row goes, the command ends with its outcome, the result is remembered |
| QueueProgress.SendNowTaken | manager/coworker/conversation_commands.py:1032-1081 | sending now unpauses the queue, touches no command and is remembered |
| QueueProgress.ResumeTaken | manager/coworker/conversation_commands.py:699-729 | resuming unpauses the queue and remembers whether it was paused |
| QueueProgress.MoveTaken | manager/coworker/conversation_commands.py:1083-1140 | a moved item stands at its target position, clamped to the queue, the others keep their order, and that position is remembered |
| CommandTables.CommandStore.constructor | manager/coworker/conversation_commands.py:107-168 | a new store has empty tables |
| CommandTables.CommandStore.EndPosition | manager/coworker/conversation_commands.py:308-315 | scanning the rows gives the next position |
| CommandTables.CommandStore.Place | manager/coworker/conversation_commands.py:1119-1129 | the loop over a listing writes exactly the renumbered rows |
| CommandTables.CommandStore.Normalize | manager/coworker/conversation_commands.py:852-872 | the rows become the normalized rows |
| CommandTables.CommandStore.ClearPauseWhenEmpty | manager/coworker/conversation_commands.py:645-654 | the pause goes exactly when no row is left |
| CommandTables.CommandStore.Accept | manager/coworker/conversation_commands.py:247-342 | new tables, agreement, and which receipt or refusal the caller gets |
| CommandTables.CommandStore.ClaimNext | manager/coworker/conversation_commands.py:769-830 | new tables, agreement, and the head's command, turn and payload, or nothing when paused or empty |
| CommandTables.CommandStore.MarkTerminal | manager/coworker/conversation_commands.py:572-598 | new tables, agreement, and whether a command had the turn |
| CommandTables.CommandStore.MarkExecutionTerminal | manager/coworker/conversation_commands.py:600-628 | new tables, agreement when no waiting command is bound, and whether a running one was |
| CommandTables.CommandStore.CheckpointExecution | manager/coworker/conversation_commands.py:382-433 | new tables, agreement, a conflict exactly for a forbidden rebind, and true exactly when a command changed |
| CommandTables.CommandStore.RecoverUncheckpointed | manager/coworker/conversation_commands.py:512-570 | new tables, agreement, and whether an uncertain command was moved |
| CommandTables.CommandStore.PauseQueue | manager/coworker/conversation_commands.py:667-697 | new tables and agreement, with or without restoring dispatches |
| CommandTables.CommandStore.Restart | manager/coworker/conversation_commands.py:183-222 | the startup recovery of the tables, and agreement |
| CommandTables.CommandStore.Admit | manager/coworker/conversation_commands.py:832-899 | an edit is refused as replayed, key reused, missing or stale, or goes ahead, each exactly when it should |
| CommandTables.CommandStore.Record | manager/coworker/conversation_commands.py:901-927 | the edit is recorded under its key unless the key is empty |
| CommandTables.CommandStore.RemoveRow | manager/coworker/conversation_commands.py:951-963 | the row goes, the rest is renumbered, the command ends |
| CommandTables.CommandStore.DeleteQueueItem | manager/coworker/conversation_commands.py:929-976 | new tables, agreement, applied exactly when admitted |
| CommandTables.CommandStore.RestoreQueueItem | manager/coworker/conversation_commands.py:978-1030 | new tables, agreement, and the payload handed back |
| CommandTables.CommandStore.PrioritizeQueueItem | manager/coworker/conversation_commands.py:1032-1081 | new tables, agreement, applied exactly when admitted |
| CommandTables.CommandStore.MoveQueueItem | manager/coworker/conversation_commands.py:1083-1140 | new tables, agreement, applied exactly when admitted |
| CommandTables.CommandStore.ResumeQueue | manager/coworker/conversation_commands.py:699-729 | new tables, agreement, and true exactly for a first resume of a paused queue |
| Worker.ReceiptRoundTrip | haas/runtime/worker.py:80-128 | splitting and parsing a written receipt gives the events back |
| Worker.SignatureRoundTrip | haas/runtime/worker.py:81-111 | the signature line reads back as request digest and MAC |
| Worker.ReplayIsExecution | haas/runtime/worker.py:106-128 | a receipt is replayed in full only to the envelope it was signed for, and as executed |
| Worker.MoveKeeps | haas/runtime/worker.py:45-91 | every step of every process keeps the marker exclusive and the files in line with the executor log |
| Worker.FullStreamIsExecution | haas/runtime/worker.py:45-128 | under any interleaving and crashes, a full stream is what the executor returned for this very envelope |
| Worker.AtMostOnceIff | haas/runtime/worker.py:66-86 | the executor was called at most once exactly when no call followed a marker created beside a receipt |
| Worker.AtMostOnce | haas/runtime/worker.py:45-91 | with one worker at a time and a crash after any effect or inside the executor, at most one call, and every full stream is its events, to its envelope only |
| Worker.TwoWorkersExecuteTwice | haas/runtime/worker.py:66-73 | an interleaving of two live workers that executes twice |
| Worker.FirstRun | haas/runtime/worker.py:66-91 | the files and the executor log when the first run stops at each point, inside the executor included |
| Worker.RetryReplays | haas/runtime/worker.py:106-128 | with receipt and signature on disk, a run replays to the same envelope and refuses another, changing nothing |
| Worker.RetryRefused | haas/runtime/worker.py:66-73 | with only a marker a run is ambiguous, with only a receipt incomplete, changing nothing |
| Worker.CrashThenRetry | haas/runtime/worker.py:45-128 | what a second run gets after the first crashed at each point: it executes, is refused for good, or replays to the same envelope only |
| Worker.PrivateWorker.constructor | haas/runtime/worker.py:32-43 | a new worker has no files and has executed nothing |
| Worker.PrivateWorker.Run | haas/runtime/worker.py:45-91 | each of the four envelope errors exactly in its case, in terms of version, generation, the letters of the id and the request, with nothing touched; otherwise exactly the protocol's steps up to the stop, on this id's files and executor log only |
| Worker.PrivateWorker.RunEnvelope | haas/runtime/worker.py:59-91 | the run of a good envelope is exactly the protocol's steps up to the stop |
| Worker.ValidIdIff | haas/runtime/worker.py:24-54 | an id is valid exactly when it is 1 to 128 ASCII letters, digits, underscores and hyphens |
| Worker.PlayCode | haas/runtime/worker.py:59-128 | a run past the envelope is refused only with one of the five later codes |
| Worker.PrivateWorker.ReplayFrom | haas/runtime/worker.py:106-128 | the reading half is the protocol's reading steps |
| Worker.PrivateWorker.ExecuteFrom | haas/runtime/worker.py:70-79 | the marking half, up to the executor call, is the protocol's steps |
| Worker.PrivateWorker.AwaitFrom | haas/runtime/worker.py:78-80 | the executor's return or failure is the protocol's step |
| Worker.PrivateWorker.StoreFrom | haas/runtime/worker.py:80-86 | receipt, signature and unlink are the protocol's steps |
| Compaction.EstimateTokens | manager/coworker/compaction.py:48-57 | a quarter of the total serialized length, rounded down |
| Compaction.TurnStarts | manager/coworker/compaction.py:133-144 | exactly the user and the assistant indices from the start on, in order |
| Compaction.Fit | manager/coworker/compaction.py:155-159 | the earliest candidate whose suffix fits, or none fits |
| Compaction.After | manager/coworker/compaction.py:162-165 | exactly the assistant indices inside the last turn |
| Compaction.PickBoundary | manager/coworker/compaction.py:147-174 | returns the one boundary the rules pick when it lies past the first message, and nothing otherwise |
| Compaction.PickedUnique | manager/coworker/compaction.py:147-174 | the rules leave no choice |
| Compaction.SuffixFits | manager/coworker/compaction.py:155-159 | once a suffix fits, every shorter one does |
| Compaction.FitsIff | manager/coworker/compaction.py:48-57 | a suffix fits exactly when a quarter of its serialized length is within the budget |
| Compaction.EarliestTurnThatFits | manager/coworker/compaction.py:155-162 | when any user turn fits, the earliest one is picked and all after it fits |
| Compaction.PickHeads | manager/coworker/compaction.py:147-174 | the tail starts with a user or assistant message, and the last turn is cut only when it does not fit |
| Compaction.StepPickIff | manager/coworker/compaction.py:169-170 | without user messages the earliest fitting step is picked exactly when it is not message 0 or is the only step |
| Compaction.FittingStepDropped | manager/coworker/compaction.py:169-170 | a history that fits and is cut all the same |
| Compaction.ExtractUserMessages | manager/coworker/compaction.py:280-294 | the loop computes the extraction |
| Compaction.ExtractConcat | manager/coworker/compaction.py:280-294 | extracting from a whole is extracting from its parts |
| Compaction.ExtractKeepsWords | manager/coworker/compaction.py:280-294 | one text for each user message that has any words, in order, with exactly its words, single-spaced, cut at 600 characters |
| Compaction.SpeakersAre | manager/coworker/compaction.py:286-292 | those messages are exactly the user's with a character that is not white space |
| Compaction.KeptKeeps | manager/coworker/compaction.py:290-293 | the text kept of a message has its words, and a message without words keeps none |
| Text.WordsCover | manager/coworker/compaction.py:290-290 | splitting gives words and loses nothing but white space |
| Text.WordsJoined | manager/coworker/compaction.py:290-290 | joining words and splitting again gives them back |
| Compaction.CapNewest | manager/coworker/compaction.py:297-303 | capping what was capped is capping the whole, and kept plus dropped stays the total |
| Compaction.BuildState | manager/coworker/compaction.py:413-448 | a new state compacts up to the picked boundary; nothing exactly when no boundary lies past the prior one; an error only without a summary |
| Compaction.TrimState | manager/coworker/compaction.py:451-494 | a new state compacts up to the first user or assistant message past the fraction, with the earlier summary and the note; nothing when too little is left or no such message |
| Compaction.AdvancePositive | manager/coworker/compaction.py:464-464 | the fraction is rounded down, and at least one |
| Compaction.CompactKeepsFaithful | manager/coworker/compaction.py:413-494 | one more compaction on a grown history keeps the state equal to a one-shot extraction |
| Compaction.ChainIsOneShot | manager/coworker/compaction.py:413-494 | over any chain, kept messages are the last 40 of a one-shot extraction, kept plus dropped is its length, boundaries strictly increase |
| Compaction.ChainKeepsWords | manager/coworker/compaction.py:413-494 | over any chain the state holds the words of the last 40 user messages before its boundary, in order, and counts the others |
| Compaction.OutboundWellFormed | manager/coworker/compaction.py:519-535 | every tool result in the outbound view follows its call in the view |
| Compaction.ChainViewWellFormed | manager/coworker/compaction.py:519-535 | so at every point of a chain and after any growth; the system message, the block and the tail are sent in that order, unchanged |
| NamespaceTools.FlattenIsIdentityIff | haas/model_proxy/proxy.py:572-598 | flattening changes nothing exactly where there is no namespaced call |
| NamespaceTools.RoundTripIff | haas/model_proxy/proxy.py:572-624 | restoring after flattening gives the value back exactly when namespaced calls are declared and not nested and other calls avoid bridged names |
| NamespaceTools.NamespacedRoundTrip | haas/model_proxy/proxy.py:572-624 | the same for one namespaced call |
| NamespaceTools.OtherRoundTrip | haas/model_proxy/proxy.py:572-624 | the same for any other object, from its fields |
| NamespaceTools.Bridge.constructor | haas/model_proxy/proxy.py:79-82 | a new bridge is empty |
| NamespaceTools.Bridge.FlattenTools | haas/model_proxy/proxy.py:497-546 | the loop fills the bridge and builds the list as specified, or reports the conflict |
| NamespaceTools.Bridge.Take | haas/model_proxy/proxy.py:512-522 | one tool of the list, as specified |
| NamespaceTools.Bridge.TakeChildren | haas/model_proxy/proxy.py:523-545 | the functions of one namespace, as specified |
| NamespaceTools.AcceptedNamesDistinct | haas/model_proxy/proxy.py:497-546 | in an accepted list no other tool, bridged or plain, has a bridged tool's name, and the bridge takes it back to where it came from |
| NamespaceTools.FlattenedListIs | haas/model_proxy/proxy.py:497-546 | a list is accepted exactly when no function's flat name clashes with another or with a plain tool; it then holds, in order, each plain tool unchanged and each function under its flat name with the merged description and every other field |
| NamespaceTools.SourcesAccepted | haas/model_proxy/proxy.py:497-546 | the same from the plain tools and functions in order, and which names are taken |
| NamespaceTools.ToolsAdd | haas/model_proxy/proxy.py:512-545 | adding the tools is adding those one by one |
| NamespaceTools.BridgeIsDeclarations | haas/model_proxy/proxy.py:497-546 | the bridge of an accepted list holds exactly the declared functions |
| NamespaceTools.DeclaredCallRoundTrip | haas/model_proxy/proxy.py:497-624 | a call to a declared function with plain arguments comes back as it was |
| RuntimeTokens.Base64RoundTrip | haas/model_proxy/token.py:116-133 | decoding an encoding gives the bytes back (section 5 of RFC 4648) |
| RuntimeTokens.PaddingRestored | haas/model_proxy/token.py:43-48 | stripping the padding and restoring it is the identity on encodings |
| RuntimeTokens.SessionRoundTripIff | haas/model_proxy/token.py:116-137 | a token gives its session id back exactly when the id is not empty and has no white space, and nothing otherwise |
| RuntimeTokens.TokensSeparateSessions | haas/model_proxy/token.py:43-48 | good sessions never share a token |
| RuntimeTokens.TokensDiffer | haas/model_proxy/token.py:43-48 | equal tokens have the same session, generation and nonce |
| RuntimeTokens.AnyToken | haas/model_proxy/token.py:116-137 | what a token of any origin gives: nothing without prefix and plain part, the raised case exactly for a part outside ASCII, otherwise only a good id |
| RuntimeTokens.Vectors | haas/model_proxy/token.py:43-48 | the test vectors of section 10 of RFC 4648, and the two digits of its section 5 |
| RuntimeTokens.RuntimeTokenManager.constructor | haas/model_proxy/token.py:23-25 | a new table is empty |
| RuntimeTokens.RuntimeTokenManager.Issue | haas/model_proxy/token.py:31-41 | the table gains a token of its session, generation and nonce, which is accepted exactly up to the given expiry or now plus the time to live |
| RuntimeTokens.RuntimeTokenManager.Validate | haas/model_proxy/token.py:54-66 | the scope exactly of a known, unexpired token |
| RuntimeTokens.RuntimeTokenManager.Renew | haas/model_proxy/token.py:73-80 | a known token is accepted exactly up to the new expiry, and nothing else changes |
| RuntimeTokens.RuntimeTokenManager.Adopt | haas/model_proxy/token.py:82-101 | a foreign token is taken exactly for the session it names, up to its expiry, and the non-ASCII case is raised |
| RuntimeTokens.RuntimeTokenManager.Revoke | haas/model_proxy/token.py:103-104 | the token leaves the table |
| RuntimeTokens.RuntimeTokenManager.RevokeSession | haas/model_proxy/token.py:111-114 | afterwards no token names the session and every other entry stays |
| EventLog.AppendOk | haas/events.py:108-150 | an append keeps ids increasing and invocation events numbered 0 to n-1 |
| EventLog.ReplayIsRest | haas/api.py:2612-2636 | replay after an invocation's event k returns exactly its events k+1 on |
| EventLog.RefusedIff | haas/api.py:1374-1395 | a page is refused exactly for a limit outside 1 to 1000 or an unknown cursor, a replay exactly for the latter |
| EventLog.PageFrom | haas/api.py:1374-1395 | a page holds the next events up to the limit, and a cursor exactly when more follow |
| EventLog.CursorAdvances | haas/api.py:1374-1395 | a returned cursor stands exactly one page further on |
| EventLog.FollowGivesLog | haas/api.py:1374-1395 | following the returned cursors with any accepted limit ends and gives the log without gap or repeat |
| EventLog.PagesAreContiguous | haas/api.py:1374-1395 | pages of a growing log, with any limits, are together a prefix of it, and all of it when no cursor comes back |
| EventLog.EventStore.constructor | haas/stores/memory.py:438-482 | a new store has no events |
| EventLog.EventStore.Append | haas/stores/memory.py:853-866 | the session log gains one well-numbered event, and each index stays the log filtered by invocation |
| EventLog.EventStore.ReadInvocation | haas/stores/memory.py:868-877 | the filtered session log after the given number |
| Idempotency.FreshOnce | haas/stores/memory.py:915-1007 | in every run, between two fresh reservations of a key lies a release, an owning-session delete, or an expiry and then a sweep, and every replayed result was completed since the latest fresh one under the same hash |
| Idempotency.ReplaysUntilExpiry | haas/stores/memory.py:915-987 | from its fresh reservation on, an accepted and completed key replays its result to the same request exactly until its time is over, whatever happens to other keys in between, and is expired from then on |
| Idempotency.FreshAfterEnd | haas/stores/memory.py:915-977 | a key that is given up can be reserved afresh with any request; deleting frees exactly the keys of the deleted invocations |
| Idempotency.NextKeeps | haas/stores/memory.py:915-1007 | every operation keeps the records in line with the history |
| Idempotency.EndEndsAll | haas/stores/memory.py:915-934 | once the latest reservation of a key is over, all of them are |
| Idempotency.IdempotencyStore.constructor | haas/stores/memory.py:438-482 | a new table is empty |
| Idempotency.IdempotencyStore.ExpireResult | haas/stores/memory.py:979-987 | an accepted, completed, aged record becomes a tombstone |
| Idempotency.IdempotencyStore.SweepExpired | haas/stores/memory.py:989-1007 | exactly the tombstones whose time is over leave, and their number is returned |
| Idempotency.IdempotencyStore.ReserveKey | haas/stores/memory.py:915-934 | fresh exactly for a key with no open record; otherwise expired exactly for a dropped or aged result, conflict exactly for another request hash, and else the replayed result of the record |
| Idempotency.IdempotencyStore.AcceptKey | haas/stores/memory.py:936-947 | an open record is accepted with its expiry; unknown exactly otherwise |
| Idempotency.IdempotencyStore.CompleteKey | haas/stores/memory.py:949-953 | the result is recorded in an existing record |
| Idempotency.IdempotencyStore.ReplayKey | haas/stores/memory.py:955-962 | the result of an open record that has not aged, as read from the history, and nothing exactly when there is none |
| Idempotency.IdempotencyStore.ReleaseKey | haas/stores/memory.py:974-977 | an existing record is given up |
| Idempotency.IdempotencyStore.DeleteInvocations | haas/stores/memory.py:547-573 | exactly the records of the session's invocations leave |
| Artifacts.LastWriteWins | haas/artifacts/store.py:55-166 | over every run each path of each owner and session shows the digest and media type written last, and holds those bytes where it holds any |
| Artifacts.UploadIff | haas/artifacts/store.py:55-102 | an upload is refused exactly for its size, or else for a full listing; an accepted one leaves the listing within its quota |
| Artifacts.PublishIff | haas/artifacts/store.py:104-166 | an unchanged publish is always accepted; any other is refused exactly when the listing has no room beside what it supersedes, or else for its size |
| Artifacts.PublishQuotaIff | haas/artifacts/store.py:133-143 | after a publish the listing is within the quota unless the publish changed nothing and the listing was beyond it |
| Artifacts.UnchangedPublishBeyondQuota | haas/artifacts/store.py:133-143 | two uploads and an unchanged publish accepted beyond the quota |
| Artifacts.MetadataOnlyPublish | haas/artifacts/store.py:133-137 | an upload without content and a publish of its bytes that does not read back |
| Artifacts.PublishedBytesIff | haas/artifacts/store.py:104-166 | a published path reads back as the published bytes unless it was unchanged and metadata only |
| Artifacts.StepKeepsContent | haas/artifacts/store.py:55-166 | a file still listed after a step still holds its bytes |
| Artifacts.UnlistedIff | haas/artifacts/store.py:55-197 | a listed file leaves the listing exactly when it is superseded or its session is deleted |
| Artifacts.ListedKeepsBytes | haas/artifacts/store.py:55-244 | from any point of any run, a file with content stays listed and keeps its exact bytes until it is superseded or its session is deleted |
| Artifacts.NothingToEvict | haas/artifacts/store.py:225-244 | every file with content is listed, so eviction finds nothing |
| Artifacts.CeilingKeptIff | haas/artifacts/store.py:225-244 | an upload keeps the content ceiling exactly when it fits under it beside what is held |
| Artifacts.CeilingKeptByPublishIff | haas/artifacts/store.py:104-166 | a publish that changes something keeps it exactly when it fits beside what is held without the superseded bytes |
| Artifacts.CeilingExceeded | haas/artifacts/store.py:225-244 | one upload above the ceiling is held in full |
| Artifacts.NextShows | haas/artifacts/store.py:55-197 | every operation keeps the listing equal to the last-write-wins map |
| Artifacts.ArtifactStore.constructor | haas/artifacts/store.py:43-49 | a new store is empty |
| Artifacts.ArtifactStore.ContentBytes | haas/artifacts/store.py:232-232 | the sum of the held content's lengths |
| Artifacts.ArtifactStore.Evict | haas/artifacts/store.py:225-244 | only unlisted content goes, least recently accessed first, until within the ceiling or none is left |
| Artifacts.ArtifactStore.Store | haas/artifacts/store.py:96-102 | record, listing and content are added, and eviction takes nothing |
| Artifacts.ArtifactStore.Register | haas/artifacts/store.py:55-102 | an upload is stored or refused for its path, size or the file quota, in that order |
| Artifacts.ArtifactStore.RegisterProduced | haas/artifacts/store.py:104-166 | a publish is unchanged, refused, or supersedes the path's earlier files |
| Artifacts.ArtifactStore.DeleteSession | haas/artifacts/store.py:182-197 | every current and superseded file of the session goes, nothing else |
| Artifacts.ArtifactStore.ReadContent | haas/artifacts/store.py:199-217 | the bytes exactly of a known file of this owner that holds content |
| Policies.CompileOnlyNarrows | haas/policy/controller.py:49-238 | without delegation the compiled policy is narrower than after any prefix of the layers, from the start or from the first non-empty list as the domain calls for |
| Policies.EveryLayerHonoured | haas/policy/controller.py:49-200 | without delegation the compiled policy is at least as restricted as each layer asked for by itself: lists, mode, root, action, disabled tools, approval mode and models |
| Policies.CompiledComesFrom | haas/policy/controller.py:49-200 | for every accepted list of layers, delegating or not: each list holds exactly the entries asked for last, or all later ones once delegated; each single setting is the last one given; disabled tools add up; unasked roots are the root |
| Policies.LayerSets | haas/policy/controller.py:86-200 | what one accepted layer makes of each setting |
| Policies.DelegatedLayerIff | haas/policy/controller.py:86-200 | after delegation a layer is refused exactly for an unknown mode, action or approval mode |
| Policies.NoLayers | haas/policy/controller.py:49-82 | the policy without any layer |
| Policies.CompiledIff | haas/policy/controller.py:49-200 | without delegation compilation succeeds exactly when each layer is acceptable after the ones before |
| Policies.LayerNarrows | haas/policy/controller.py:86-200 | one layer is taken exactly when acceptable, and then only narrows |
| Policies.WorkspaceNarrows | haas/policy/controller.py:86-127 | the workspace merge succeeds exactly when mode, roots and root narrow, and is invalid exactly for an unknown mode |
| Policies.NetworkNarrows | haas/policy/controller.py:129-150 | the network merge succeeds exactly when action and allow-list narrow, and is invalid exactly for an unknown action |
| Policies.ToolsNarrow | haas/policy/controller.py:152-180 | disabled tools only grow, the approval mode moves only along its narrowing transitions, and an unknown one is invalid |
| Policies.ModelNarrows | haas/policy/controller.py:182-200 | a given model list is only cut down |
| Policies.UrlsNarrow | haas/policy/controller.py:204-221 | a narrower network section authorizes no new URL once a list was given |
| Policies.PathsNarrow | haas/policy/controller.py:223-238 | a narrower workspace section allows no new write once roots were given |
| Policies.FirstListAddsIff | haas/policy/controller.py:139-150 | after layers without an allow-list, exactly which URLs the compiled policy adds |
| Policies.FirstRootsAddIff | haas/policy/controller.py:101-112 | after layers without writable roots, exactly which paths the compiled policy makes writable anew |
| Policies.PrivateAddressAdded | haas/policy/controller.py:139-150 | a layer whose first allow-list makes a private address reachable |
| Policies.OutsideRootAdded | haas/policy/controller.py:101-112 | a layer whose first writable root lies outside the workspace |
| Policies.MergeLists | haas/policy/controller.py:101-112 | the merged list, appended in place only to the running list: what is asked for replaces it, or with delegation extends it |
| Policies.MergeWorkspaces | haas/policy/controller.py:86-127 | the merged workspace section or its error, with no input list changed |
| Policies.MergeNetworks | haas/policy/controller.py:129-150 | the merged network section or its error, with no input list changed |
| Policies.MergeToolSets | haas/policy/controller.py:152-180 | the merged tools section or its error, in a new list |
| Policies.MergeModels | haas/policy/controller.py:182-200 | the merged model section or its error, with no input list changed |
| Policies.Compile | haas/policy/controller.py:49-82 | the compiled policy or its error; no list that existed before is changed, and none is shared with the result |

## Left out

- haas/sessions.py is a transition system over values, not a class: coroutine scheduling inside a step, and the
  pause call's read and write with the control lock contended, are not captured.
- Sessions: session deletion, state deltas, profiles, native references and pending interactions are not modelled;
  the harness adapter is trusted to report one of its five terminal statuses, and the consumer of a stream to close
  it rather than throw into it.
- SessionSafety.DecidedStaysDecided: holds within one process for a status in memory, because a restart can undo it;
  SessionRestarts.DecidedSurvivesRestartIff says exactly when.
- SessionSafety.PolicyUpdatesSurvive: across restarts only while the session's row is its own, and for the applied
  revision in memory within one process only, because a restart can take both back;
  SessionRestarts.SessionSurvivesRestartIff and SessionRestarts.AppliedSurvivesRestartIff say exactly when.
- SessionSafety.EventsFollowTokens: the order is promised within each process, because a restart can lose the token;
  SessionOrder.OrderSurvivesRestartIff says exactly when it holds across one.
- SessionRows: a record's contents are a string; of the checks on a loaded record only those on its key are modelled,
  because the others hold of every record that was written.
- Leases.TokensOverRun: with reopens, for bar-free keys whose rows no other key acquires under, because the source
  loses tokens otherwise; the shared-row lemmas say how.
- CommandTables.CommandStore.MarkExecutionTerminal: keeps the tables in agreement only under the stated condition,
  because the source deletes the row of a waiting command that is still bound.
- CommandTables.CommandStore.RecoverUncheckpointed: asks that one turn id names at most one uncertain command, which
  the drawn turn ids give.
- CommandQueue: one conversation at a time; queue snapshots for display, the startup resolution of legacy
  executions and session deletion are left out.
- Worker: file permissions and the generation token's file checks; a torn write of a temporary file is invisible to
  the protocol and is not modelled.
- Compaction: the summarizer's text, the working-state block and the rendering of the compacted block are arbitrary
  strings; content parts are given as their text and serialized lengths as numbers; the trim fraction is a real
  number instead of a float.
- NamespaceTools: the merge of tool descriptions is a given function; HTTP relay and retries are left out.
- RuntimeTokens: revoking by invocation and refreshing repeat the members shown.
- EventLog: payload projection and redaction; the stored event id's decimal text.
- Idempotency: the SQLite mirror of the table; deleting a session is modelled as far as it touches this table.
- Artifacts: path normalization and media-type inference are given; ids are fresh draws.
- Policies: URL parsing, address classification and path resolution are given functions; with delegation
  nothing is promised about narrowing.
- The HTTP routes, delegated runtimes, admission, profiles, redaction and the graphical client would only add
  plumbing or easier members.
