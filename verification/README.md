# Cadestro fleet manager: a verified model

Cadestro manages a fleet of machines with a root agent on each machine and a SQLite control plane. This
project models the protocols between the two that must survive crashes, lost messages and stale reads, and
proves what they keep over every run. `dafny verify dfyconfig.toml` checks all of it.

| file | what it models |
|---|---|
| `Actions.dfy`, `Order.dfy` | actions, results and digests; the byte order of text keys |
| `Executor.dfy` | detection, remediation, verification, and the status and error text of a result |
| `AgentStore.dfy` | the agent's tables `scheduled_work` and `result_outbox`, as a class whose methods are its transactions |
| `ControlPlane.dfy` | the assignment queries, storing a reported result, compliance |
| `Delivery.dfy` | the whole system: scheduler, network side, crashes, message loss, server, administration, as one state machine over the two models above |
| `Rotation.dfy` | certificate rotation between agent disk, agent memory and device row |
| `Enrollment.dfy` | registration tokens, device rows and the agent's resumable enrollment |
| `Correlation.dfy` | requests and replies on one bidirectional stream, with its mutexes and one-slot channels |
| `Sessions.dfy` | session versions, role edits, refresh tokens |
| `Paging.dfy` | keyset pages composed with the browser's page collector |
| `RemoveDir.dfy` | the recursive delete that never follows a symbolic link |
| `Replace.dfy` | crash-safe replace and backup-and-replace |
| `Pacman.dfy` | the `IgnorePkg` parser and printer, pinning and unpinning |

A protocol is a state machine: a `Step` datatype, an enabling predicate and a transition function, an
invariant proved step by step, and theorems about `After(s, steps)` for every valid sequence of steps. Code
that changes objects or loops is a class or a method proved against a function of the old state.

What the code relies on and the model assumes:

- ULIDs, connection and request numbers and certificate serials are fresh; refresh tokens cannot be forged.
- The action digest is injective (`Actions.ActionDigest` keeps the digested action), and protobuf blobs decode to what was encoded.
- A transaction is all or nothing, and primary keys and identity public keys are unique.
- The clock of the scheduling argument does not go back.
- When a replacement starts, the files it names are whole on the medium; temporary names and inodes are new.
- The file trees of `RemoveDir.dfy` and `Replace.dfy` are not disturbed by other processes while a call runs.

Where a property is false of the code, the model keeps the code and the exact condition is proved:

- A reload that fails while memory holds a renewed but unsaved certificate can lock the agent out. `Rotation.Guarded`
  is exactly the absence of that moment: guarded runs never lock out (`ServerNeverOutruns`), an unguarded
  reload can (`UnguardedReloadLocksOut`), and one is reachable (`UnguardedReloadIsReachable`).
- A written `IgnorePkg` list is read back if and only if it is empty, or the file had an `IgnorePkg` line, or it
  mentions `[options]` (`Pacman.RoundTrip`); `ListIsDroppedWithoutOptions` is the concrete loss.
- A failed replacement leaves its temporary behind if and only if the removal of the temporary failed
  (`Replace.Program.SafeReplaceFile`).
- The backup of a replaced file survives every crash if the directory sync after it took effect, whose errors the code
  ignores; otherwise a crash may leave the new file and no backup (`Replace.Program.SafeBackupAndReplace`).
- Every rewrite of the pacman configuration ends the file with one more newline (`Pacman.OtherLinesAreKept`).

## Model

| member | source | states |
|---|---|---|
| `Executor.ComplianceNeverRemediates` | agent/internal/executor/executor.go:114-161 | whatever commands do, a compliance action runs at most its detection script |
| `Executor.CleanDetectionIff` | agent/internal/executor/executor.go:56-91 | a compliance action yields a clean detection exactly when its detection script ran and exited 0 |
| `Executor.RemediationDiscipline` | agent/internal/executor/executor.go:114-161 | remediation with a detection script happens only after detection reported a deviation, and success means the last command was a clean detection |
| `Executor.FailureIsExplained` | agent/internal/executor/executor.go:56-106 | every unsuccessful result carries error text, and the executor never reports an indeterminate status |
| `Executor.EnsureError` | agent/internal/executor/executor.go:93-106 | afterwards some output holds error text, and status and identity are kept |
| `Executor.StatusIff` | agent/internal/executor/executor.go:56-91 | the status follows from the commands alone: success exactly when everything the kind of action needs went well, else timeout exactly when the time was over or the last command was cut off by the deadline, else failed |
| `Executor.PerformRuns` | agent/internal/executor/executor.go:114-161 | exactly the commands run, by kind and outcome: detection first, the script only on deviation or without detection, detection again only after a clean script, nothing after a failure |
| `Executor.ShellOutputs` | agent/internal/executor/executor.go:114-171 | a shell result carries the script's output if it was run and the last detection's if there was one, changed at most by filled-in error text |
| `Executor.SuccessOutputs` | agent/internal/executor/executor.go:67-85 | a successful result carries the outputs untouched |
| `Executor.ManagedOutputs` | agent/internal/executor/executor.go:70-82 | a package or update result carries what its command left and no detection |
| `Actions.DigestBindsDefinition` | agent/internal/store/action.go:141-167 | two definitions have the same digest only if they are equal |
| `AgentStore.NextExecuteBounds` | agent/internal/store/store.go:82-100 | an action runs every `interval_hours` hours, or every 8 when that is not positive: the next time is that far after the start, or after now for a start in the future, and now for a row that never ran |
| `AgentStore.DesiredLookup` | agent/internal/store/action.go:26-40 | a well-formed snapshot decodes to exactly its entries under their own identifiers |
| `AgentStore.ParsePolicy` | agent/internal/store/action.go:26-40 | the parsing loop accepts a snapshot exactly when no entry is nil, unnamed or a duplicate, and then yields the desired map |
| `AgentStore.ReconcileMeaning` | agent/internal/store/action.go:41-103 | live rows become exactly the policy; new, revived and redefined rows are due now, a new one otherwise blank and the others otherwise as they were; other rows survive only running and then only retired; unchanged rows are untouched |
| `AgentStore.ReconcileIdempotent` | agent/internal/store/action.go:41-103 | the same policy again, at any later time, changes no row |
| `AgentStore.UpdateExistingRows` | agent/internal/store/action.go:57-89 | the loop over stored rows, in any order, brings every stored row to its target |
| `AgentStore.InsertMissingRows` | agent/internal/store/action.go:90-103 | the loop over missing actions, in any order, completes the reconciliation as one simultaneous assignment |
| `AgentStore.Store.ReconcilePolicy` | agent/internal/store/action.go:26-103 | a malformed or nil snapshot changes nothing; otherwise the work table becomes the reconciliation of the old one, and the outbox is untouched |
| `AgentStore.Store.GetDueScheduledWork` | agent/internal/store/action.go:111-127 | returns exactly the live, idle rows whose time has come, with their definitions, earliest first |
| `AgentStore.Store.BeginActionRun` | agent/internal/store/action.go:128-168 | begins exactly a due, live, idle row with a new run identifier, under the definition stored now, and sets run, digest, start and next time and nothing else |
| `AgentStore.Store.RecordActionResult` | agent/internal/store/action.go:169-202 | records exactly a complete result of the running row with that run and digest, releasing or deleting the row and appending one outbox entry |
| `AgentStore.Store.RecoverInterruptedActions` | agent/internal/store/action.go:225-261 | finishes every running row once, in some order, with an indeterminate result; a sound store never makes it fail |
| `AgentStore.InterruptedMeans` | agent/internal/store/action.go:239-239 | an interruption names row, run and digest, claims no success, and can be recorded |
| `AgentStore.Store.GetPendingResults` | agent/internal/store/action.go:203-219 | returns every outbox entry once, in sequence order |
| `AgentStore.Store.DeletePendingResult` | agent/internal/store/action.go:220-224 | removes exactly that entry |
| `AgentStore.FinishStatementsCompose` | agent/internal/store/generated/action.sql.go:53-79 | the releasing update and the delete of a retired row together leave the row gone exactly if it was retired, otherwise idle and the same in every other field, change no other row, and append exactly this result |
| `AgentStore.RecoveryNeverFails` | agent/internal/store/action.go:225-261 | recovery of a sound store succeeds in any order of rows, empties the running set, deletes exactly the retired rows, keeps the schedule and appends one result per run |
| `ControlPlane.JoinSelectsTargets` | server/internal/store/generated/core.sql.go:1064-1073 | a row of the left join survives the filter exactly when the assignment targets the device directly or through a group |
| `ControlPlane.QueriesAgree` | server/internal/store/generated/core.sql.go:1209-1228 | the DISTINCT join and the correlated EXISTS select the same actions: those assigned directly or through a group |
| `ControlPlane.PolicyIsWellFormed` | server/internal/core/agent.go:148-163 | the compiled policy is never rejected by the agent and decodes to the current definitions of the assigned actions |
| `ControlPlane.VerdictIff` | server/internal/core/agent.go:165-225 | whatever its status, a first report is accepted exactly if it is well formed and its action is assigned to the device, a repeated one exactly if it is well formed and the same; everything else is rejected |
| `ControlPlane.StoreAddsOneRow` | server/internal/core/agent.go:204-225 | a first accepted report adds its row and one audit event, anything else changes no table |
| `ControlPlane.StoreIsIdempotent` | server/internal/core/agent.go:165-225 | an accepted report is stored with that payload, storing it again is accepted and changes nothing, a refused one changes nothing, no row ever changes |
| `ControlPlane.ResultStore.StoreActionResult` | server/internal/core/agent.go:165-225 | the transaction gives the specified verdict and tables, for duplicates, unassigned actions and malformed reports |
| `ControlPlane.DeviceCompliance` | server/internal/core/assignments.go:293-342 | the status is the most severe check and `passing` counts the compliant ones exactly |
| `ControlPlane.SummaryIsOrderIndependent` | server/internal/core/assignments.go:293-342 | permuting the checks changes neither status nor count |
| `ControlPlane.CheckIff` | server/internal/core/assignments.go:267-291 | a check waits exactly while there is no result of the current definition, and is then compliant exactly for a clean detection |
| `ControlPlane.DeviceStatusIff` | server/internal/core/assignments.go:293-342 | a device is non-compliant exactly if some assigned check last deviated in its current definition, else waiting exactly if some has no current result, else compliant exactly if it has a check |
| `ControlPlane.LatestMeans` | server/internal/store/generated/core.sql.go:1209-1228 | the newest result is the one with the latest completion time and, among equals, the greatest run identifier |
| `Delivery.StepOk` | agent/internal/scheduler/scheduler.go:48-116 | every step of scheduler, network, server, administration, clock and crash keeps the system invariant |
| `Delivery.RunOk` | agent/internal/scheduler/scheduler.go:48-116 | so does every run |
| `Delivery.RunConservation` | agent/internal/store/action.go:128-261 | at every moment each run ever begun is in exactly one place: one running row, one outbox entry, or settled by a verdict |
| `Delivery.NothingIsLost` | agent/internal/store/action.go:128-261 | along every continuation, runs, definitions, produced results, accepted payloads and verdicts are only added to, never changed |
| `Delivery.LiveRunSurvives` | agent/internal/store/action.go:57-89 | while a run executes, any reconciliations, uploads and server steps leave its row running with its run identifier and digest, and its result can be recorded |
| `Delivery.RecoveryAlwaysSucceeds` | agent/internal/store/action.go:225-261 | in every reachable store recovery succeeds, whatever order the rows come in |
| `Delivery.EntriesLeaveInOrder` | agent/cmd/cadestrod/runtime.go:163-187 | an entry leaves the outbox only as the oldest one and only after the server stored exactly that payload or rejected it |
| `Delivery.RejectedOnlyForCause` | server/internal/core/agent.go:165-225 | a run settled as rejected had a report handled while malformed or unassigned, so no acceptable result is thrown away |
| `Delivery.OneUpload` | agent/cmd/cadestrod/runtime.go:163-187 | sending, handling, answering and deleting remove exactly the oldest entry, settle its run with the server's verdict and leave the server's tables as storing it makes them |
| `Delivery.OneRun` | agent/internal/scheduler/scheduler.go:84-109 | beginning, executing and recording a due row leave exactly the executor's result of the definition stored then, under the run and its digest, as newest entry, and the row idle |
| `Delivery.DueListIsExact` | agent/internal/scheduler/scheduler.go:63-83 | a round works on exactly the live, idle rows whose time has come |
| `Delivery.SendsOldestFirst` | agent/cmd/cadestrod/runtime.go:163-187 | what is sent is always the oldest entry, so none is skipped |
| `Delivery.AcceptedExactlyOnce` | server/internal/core/agent.go:165-225 | under lost acknowledgements and resends there is exactly one audit event per accepted run, its row never differs from the accepted payload, and it is missing only if its action or device was deleted |
| `Delivery.CompliantMeansDetected` | server/internal/core/assignments.go:267-342 | a check is compliant only if a run of this device executed exactly the definition the server has now, ran only detection, and detection exited 0 |
| `Delivery.CompliantDeviceMeansDetected` | server/internal/core/assignments.go:293-342 | a device is compliant only if it has a check and every compliance action assigned to it was last detected clean in its current definition, and then all checks are counted as passing |
| `Delivery.StartsAreSpaced` | agent/internal/store/action.go:111-168 | in every run any two starts of a row that no reconciliation changed in between are at least its interval apart |
| `Rotation.StepOk` | agent/cmd/cadestrod/runtime.go:37-118 | every guarded step of agent, server and network keeps the rotation invariant |
| `Rotation.RunOk` | agent/cmd/cadestrod/runtime.go:37-118 | so does every guarded run |
| `Rotation.ServerHelloOk` | server/internal/core/agent.go:45-72 | a hello, however late or repeated, promotes only a certificate the agent has saved |
| `Rotation.ServerRenewOk` | server/internal/core/enrollment.go:118-186 | a renewal, however late or repeated, keeps the invariant, leaves a pending certificate unchanged, and grants only what is then pending beside the requester's active one |
| `Rotation.HelloMeans` | server/internal/core/agent.go:45-72 | a hello is accepted exactly with the active or pending certificate, which is then the active one |
| `Rotation.RenewMeans` | server/internal/core/enrollment.go:118-186 | a renewal is granted exactly to the holder of the active certificate, the same one as often as it asks, or a serial never issued before |
| `Rotation.ServerNeverOutruns` | server/internal/core/enrollment.go:118-186 | in every reachable state the server's active certificate is the agent's saved active or saved pending one |
| `Rotation.TwoAttemptsSuffice` | agent/cmd/cadestrod/runtime.go:37-118 | of two consecutive turns of the connection loop, if the first one's certificate is refused at any point where the server may see it, the second one's is accepted wherever the server sees it, whatever delayed messages are handled before, between and after |
| `Rotation.FailedAttemptsAlternate` | agent/cmd/cadestrod/cert_rotation.go:18-40 | two consecutive failed turns present both the staged and the active certificate |
| `Rotation.RotationCompletes` | agent/cmd/cadestrod/runtime.go:37-118 | from every connected reachable state a rotation can be completed, after which disk, memory and server agree on another certificate |
| `Rotation.UnguardedReloadLocksOut` | agent/cmd/cadestrod/runtime.go:16-23 | whenever a reload fails with an unsaved renewed certificate in memory, one hello and a crash leave no saved certificate the server accepts |
| `Rotation.UnguardedReloadIsReachable` | agent/cmd/cadestrod/cert_rotation.go:88-120 | such a moment is reachable: renew, fail to save, lose the connection |
| `Enrollment.ConsumeRegistrationToken` | server/internal/core/enrollment.go:91-116 | takes exactly one use (count one higher, or the row gone when the maximum is reached, other tokens untouched) or none, and none exactly for a missing or unusable token or a snapshot that wrongly announces the last use |
| `Enrollment.EnrollmentStore.RegisterTransaction` | server/internal/core/enrollment.go:31-89 | exactly when a use can be taken and device and key are new, one use is taken and the device inserted; otherwise nothing changes |
| `Enrollment.KeyTaken` | server/internal/core/enrollment.go:70-89 | the uniqueness check finds exactly the enrolled keys |
| `Enrollment.ConsumeAccounts` | server/internal/store/generated/core.sql.go:140-173 | consuming a use and charging it to a new device keep the accounts whatever the snapshot says |
| `Enrollment.StepOk` | server/internal/core/enrollment.go:31-116 | every step of registrations, agents and administrators keeps the enrollment invariant |
| `Enrollment.RunOk` | server/internal/core/enrollment.go:31-116 | so does every run |
| `Enrollment.TokenAccounting` | server/internal/store/generated/core.sql.go:140-173 | a limited token admits at most its maximum, a live row counts exactly what it admitted and has a use left, and it is gone once the maximum is reached |
| `Enrollment.StaleSnapshotsAreHarmless` | server/internal/core/enrollment.go:91-116 | a registration holding any snapshot consumes the token exactly when the row is still there and unexpired |
| `Enrollment.EnrollmentIsIdempotent` | agent/internal/deviceauth/enroll.go:46-114 | through any crashes, retries, failed saves and lost replies the agent asks under one key only, which gets at most one device and costs at most one token use; a restart asks again under the saved key; every answer and an enrolled credential file name that device |
| `Enrollment.OneDevicePerKey` | server/internal/core/enrollment.go:31-89 | any identity, however many requests for it run at once, gets at most one device and one answer |
| `Enrollment.RetryReturnsTheDevice` | server/internal/core/enrollment.go:31-60 | a retry of an enrolled identity is answered with its device although the token may be gone, and what the agent saved is that device |
| `Enrollment.AdmissionNeedsTheSecret` | server/internal/core/enrollment.go:31-89 | a device is admitted only for a request that presented the secret of a live, unexpired token, under the key of that request, at the cost of one use |
| `Enrollment.EnrollmentProceeds` | agent/internal/deviceauth/enroll.go:46-114 | an uninterrupted agent with its saved key and a live token's secret ends up enrolled as a new device of that key |
| `Correlation.PendingTable.RegisterPending` | contract/client.go:287-293 | adds a fresh one-slot channel under the identifier |
| `Correlation.PendingTable.UnregisterPending` | contract/client.go:295-299 | forgets the identifier and nothing else |
| `Correlation.PendingTable.TakePending` | contract/client.go:301-306 | looks up and forgets in one critical section |
| `Correlation.PendingTable.CloseAll` | contract/client.go:251-264 | in any iteration order closes each pending channel once, no other, and empties the table |
| `Correlation.CloseAllIsSafe` | contract/client.go:251-264 | in every reachable state the channels to close are distinct and open |
| `Correlation.StepOk` | contract/client.go:152-378 | every step of requesters, receive loop and closing keeps the correlation invariant |
| `Correlation.RunOk` | contract/client.go:152-378 | so does every run |
| `Correlation.OneReplyOrOneClose` | contract/client.go:301-378 | a channel gets at most one message or one close and never both, and a reply reaches only the request with its identifier |
| `Correlation.DeliveryNeverBlocks` | contract/client.go:301-313 | a message taken for a channel always finds it open and its slot free |
| `Correlation.NobodyWaitsAfterClose` | contract/client.go:251-285 | once the stream is cleared every waiting requester can take its reply or close at once, and a later one is told there is no stream |
| `Correlation.AnswerIsKept` | contract/client.go:319-378 | an answer or a close stays until its requester takes it, however many streams come and go |
| `Correlation.DeliveredIsReturned` | contract/client.go:301-378 | a delivered message is exactly what its requester gets, whatever happens in between |
| `Correlation.UncorrelatedMessages` | contract/client.go:200-225 | a message nobody waits for is tolerated only if it is a welcome and otherwise ends the stream |
| `Correlation.NothingLeaks` | contract/client.go:295-299 | an entry of the pending table always belongs to a request that has not finished |
| `Correlation.OtherEndings` | contract/client.go:319-378 | how a request ends without an answer: not sent, cancelled, or told that the stream closed, and it is forgotten on leaving |
| `Sessions.EditIsTight` | server/internal/core/roles.go:94-238 | an edit raises by one exactly the versions of the users it affects, and leaves everyone else's version and permissions alone |
| `Sessions.VersionsRaised` | server/internal/store/generated/core.sql.go:70-73 | exactly whose version each edit raises: the holders of a changed, renamed, described or deleted role, or the named user, or nobody |
| `Sessions.EditChangesPermissions` | server/internal/core/roles.go:116-238 | for every user and permission, who may do what after a grant, revoke, assignment, withdrawal or deletion, in terms of the roles held and what they grant |
| `Sessions.EditChangesItsRole` | server/internal/core/roles.go:37-197 | a created role grants exactly its list and has no holders, a granted permission is there, a revoked one gone, a deleted role leaves nothing |
| `Sessions.EditLeavesOthersAlone` | server/internal/core/roles.go:37-238 | no other role's name, permissions or holders change |
| `Sessions.EditIsFocused` | server/internal/core/roles.go:94-238 | of the named role only the named membership or permission changes |
| `Sessions.EffectiveIsMay` | server/internal/store/generated/core.sql.go:1704-1707 | a user's permissions are those that one of the user's roles grants |
| `Sessions.LoginIsTight` | server/internal/core/auth.go:221-257 | signing in raises only the signer's version, changes nobody's permissions, and a new user starts at version 1 |
| `Sessions.LoginIff` | server/internal/core/auth.go:221-257 | signing in fails exactly for an unknown identity of a provider that is gone |
| `Sessions.NewUserPermissions` | server/internal/store/generated/core.sql.go:30-36 | the first user ever gets what administrators may do, every later one what plain users may, where that role exists |
| `Sessions.DirectoryStore.RotateUserSession` | server/internal/store/generated/core.sql.go:2001-2006 | raises the version only if it is the presented one |
| `Sessions.DirectoryStore.CreateRole` | server/internal/core/roles.go:37-59 | inserts the role with all its permissions or nothing; a repeated or invalid permission rolls back |
| `Sessions.DirectoryStore.RoleMutation` | server/internal/core/roles.go:148-173 | changes the role and bumps its holders, or changes nothing, with the reported failure decided exactly |
| `Sessions.DirectoryStore.DeleteRole` | server/internal/core/roles.go:175-197 | bumps the holders before the cascade removes their memberships |
| `Sessions.DirectoryStore.AssignRoleToUser` | server/internal/core/roles.go:199-217 | adds the membership and raises the version, or reports which of user, role or duplicate was the reason |
| `Sessions.DirectoryStore.RevokeRoleFromUser` | server/internal/core/roles.go:219-238 | removes the membership and raises the version, or changes nothing |
| `Sessions.DirectoryStore.LinkIdentityTransaction` | server/internal/core/auth.go:221-257 | a known identity is updated, an unknown one becomes a user with the initial role, a vanished provider rolls back |
| `Sessions.StepOk` | server/internal/core/auth.go:61-98 | every step of refresh, logout, login, issuing and administration keeps the session invariant |
| `Sessions.RunOk` | server/internal/core/auth.go:61-98 | so does every run |
| `Sessions.VersionsTrackPermissions` | server/internal/core/roles.go:116-238 | over every run versions only increase, and a user whose permissions differ at its ends has a higher version |
| `Sessions.RedeemedAtMostOnce` | server/internal/core/auth.go:61-98 | no session version is redeemed twice, a redeemed one is dead, and at most one pair of tokens is ever issued for a version |
| `Sessions.CurrentTokenRefreshes` | server/internal/core/auth.go:61-84 | a token is redeemable exactly while its version is current, and refreshing yields a pair of the next version with the permissions of that moment |
| `Sessions.CurrentTokensTellTheTruth` | server/internal/auth/jwt.go:77-89 | while a refresh token is redeemable, the access token issued with it carries exactly its user's present permissions, although they were read after the rotation |
| `Sessions.ChangeKillsOldTokens` | server/internal/core/roles.go:148-238 | a refresh token issued before a change of its user's permissions is never redeemable after it |
| `Paging.PageSize` | server/internal/core/service.go:82-87 | the requested size when that is positive, otherwise 50, so never less than 1 |
| `Paging.PageIsExact` | server/internal/core/service.go:89-95 | a page holds, in order, rows of the table beyond the cursor, skips none before its last, and has a next cursor exactly when rows remain |
| `Paging.OnePage` | web/src/lib/console.ts:9-21 | one more page keeps the collection ordered and complete for lasting rows |
| `Paging.CollectPages` | web/src/lib/console.ts:9-21 | with rows coming and going between pages no row is returned twice, every row present throughout is returned, the repeated-cursor error never fires, and a static table yields its full ordered list in exactly the pages needed |
| `Paging.PagesNeededIsCeiling` | server/internal/core/service.go:82-95 | the page count is the row count over the page size, rounded up |
| `Paging.ByKeyIsOrdered` | server/internal/store/generated/core.sql.go:1666-1668 | the byte order on text keys is a strict total order |
| `Order.LessByFirstDifference` | server/internal/store/generated/core.sql.go:1666-1668 | text keys compare by their first difference, a proper prefix first |
| `Paging.ByKeyHasCursors` | server/internal/store/generated/core.sql.go:1666-1668 | keyed listings, whose cursor is the key, meet what the collector needs |
| `Paging.AuditHasCursors` | server/internal/core/assignments.go:344-358 | so does the descending audit listing, which starts from a text above every identifier |
| `Paging.NewestFirstIsOrdered` | server/internal/store/generated/core.sql.go:1493-1502 | the listing order is strict and total: later completion first, and for equal times the greater run identifier first |
| `Paging.ExecutionTokenRoundTrip` | server/internal/core/assignments.go:224-249 | for every time the server accepts results for, the composite cursor token parses back to its time and run, and is never empty |
| `Paging.ParsedTokens` | server/internal/core/assignments.go:229-249 | the empty token is the start, a token stands at a row exactly if it decodes to a time, a newline and a run identifier, everything else is refused |
| `Paging.ExecutionsHaveCursors` | server/internal/core/assignments.go:175-205 | so the execution listing meets what the collector needs |
| `RemoveDir.FileSystem.OpenNoFollowChain` | sdk/sys/fs/remove_dir_unix.go:41-65 | reaches a directory only through directories, never a link, holding exactly one descriptor on success and none on failure |
| `RemoveDir.FileSystem.RemoveAtRecursive` | sdk/sys/fs/remove_dir_unix.go:67-111 | success removes exactly the subtree, failure removes nothing outside it, every descriptor is closed, links are unlinked and not followed, the recursion ends |
| `RemoveDir.FileSystem.RemoveChildren` | sdk/sys/fs/remove_dir_unix.go:91-99 | the children, in any order, are removed with all they hold and nothing else is |
| `RemoveDir.FileSystem.RemoveDirSecure` | sdk/sys/fs/remove_dir_unix.go:15-39 | removes exactly a directory's subtree, refuses links and files without touching anything, keeps whatever removed links pointed to outside it, and without errors succeeds exactly on directories |
| `RemoveDir.ThenTheDirectory` | sdk/sys/fs/remove_dir_unix.go:91-108 | once all children are gone the directory is empty, and removing it leaves exactly the rest of the tree |
| `RemoveDir.LeafIsItsSubtree` | sdk/sys/fs/remove_dir_unix.go:76-82 | unlinking a link or file removes exactly its subtree |
| `Replace.PreparingIsAtomic` | sdk/sys/fs/safe_replace.go:13-50 | until the rename every crash leaves the whole old file |
| `Replace.RenameReplaces` | sdk/sys/fs/safe_replace.go:51-60 | the rename of a synced temporary leaves the whole old or whole new file after any crash, and touches no other name |
| `Replace.CleanupRestores` | sdk/sys/fs/safe_replace.go:22-54 | removing the temporary restores every name and file |
| `Replace.Program.SafeRename` | sdk/sys/fs/safe_rename_linux.go:12-41 | without leave to replace, an existing target is never overwritten, with or without kernel support |
| `Replace.Program.Prepare` | sdk/sys/fs/safe_replace.go:25-49 | write, mode and sync steps, failing anywhere or writing a part, keep every intermediate state crash-safe |
| `Replace.Program.SafeReplaceFile` | sdk/sys/fs/safe_replace.go:13-60 | every intermediate state is crash-safe, success installs exactly the new file and rules the old one out if the directory sync took effect, failure changes no name and leaves the temporary only if its removal failed |
| `Replace.Program.SafeBackupAndReplace` | sdk/sys/fs/safe_replace.go:62-93 | running programs always see the old content in place or whole in the backup; if the directory sync after the backup took effect, so does every crash, and if not, some crash leaves the new file without it; failure leaves the file as it was, links and directories are refused |
| `Replace.DirSyncSettles` | sdk/sys/fs/safe_replace.go:55-58 | a directory sync after the rename leaves the new file as the only one a crash can show |
| `Pacman.GetIgnoredPackages` | sdk/pkg/pacman.go:525-537 | the loop collects the names of all IgnorePkg lines in order |
| `Pacman.BuildIgnorePkgConf` | sdk/pkg/pacman.go:539-568 | the text-level loop and insertion produce the line-level rebuild |
| `Pacman.IgnoreLineReadsBack` | sdk/pkg/pacman.go:545-549 | the printed line is one line and parses to the list it was printed from |
| `Pacman.InsertIsInserted` | sdk/pkg/pacman.go:556-566 | inserting at text offsets is inserting a line after the first line that mentions the section |
| `Pacman.NamesOfAnyLine` | sdk/pkg/pacman.go:525-537 | any line that is, after white space, the key, anything up to the first equals sign and a text, contributes exactly the words of that text |
| `Pacman.NamesOfOtherLine` | sdk/pkg/pacman.go:525-537 | a line without the key or without an equals sign contributes nothing |
| `Pacman.FieldsLaws` | sdk/pkg/pacman.go:533-534 | words are what stands between white space |
| `Pacman.WhiteSpace` | sdk/pkg/pacman.go:528-528 | white space is exactly the code points Go's library trims |
| `Pacman.ReplacedInPlace` | sdk/pkg/pacman.go:542-555 | the first IgnorePkg line is replaced where it stands and the later ones dropped |
| `Pacman.InsertedInPlace` | sdk/pkg/pacman.go:556-566 | without one the line goes directly below the first line that mentions the options section |
| `Pacman.RoundTrip` | sdk/pkg/pacman.go:525-568 | for whitespace-free names the list is read back exactly when it is empty, or the file had an IgnorePkg line or mentions the options section; otherwise nothing is read back |
| `Pacman.ListIsDroppedWithoutOptions` | sdk/pkg/pacman.go:556-566 | the concrete configuration that forgets the pinned package |
| `Pacman.OtherLinesAreKept` | sdk/pkg/pacman.go:539-568 | every other line keeps content and order, with one more trailing newline |
| `Pacman.UnionMeans` | sdk/pkg/pacman.go:444-449 | pinning keeps the old list as prefix, adds exactly the missing names and repeats none |
| `Pacman.WithoutMeans` | sdk/pkg/pacman.go:466-471 | unpinning keeps exactly the other names, each as often as before and in order |
| `Pacman.UnpinUndoesPin` | sdk/pkg/pacman.go:426-473 | unpinning freshly pinned names restores the list |
| `Pacman.PinTakesEffect` | sdk/pkg/pacman.go:426-451 | a pin is read back exactly when the file has an IgnorePkg line or mentions the options section |
| `Pacman.UnpinTakesEffect` | sdk/pkg/pacman.go:455-473 | an unpin is always read back |
| `Pacman.ConfigFile.Pin` | sdk/pkg/pacman.go:426-451 | rewrites the file with the ordered union, or leaves it on an empty or invalid request |
| `Pacman.ConfigFile.Unpin` | sdk/pkg/pacman.go:455-473 | rewrites the file with the ordered difference, or leaves it on an empty or invalid request |

## Left out

- TLS, X.509, CSR and PEM handling, JWT signing, OIDC, SHA-256, base64url and protobuf encoding: certificates are serials, tokens are records, codecs are faithful parameters.
- SQLite, Goose and sqlc themselves: only the meaning of the statements is kept; `received_at` and `run_started_at` columns and the wording of errors are not part of this model.
- The order in which due work and interrupted work are listed is left arbitrary, which covers the order the queries give; one recovery uses one clock reading.
- The exit status number inside the text of a shell error, the shell settings (interpreter, user, environment) and the action timeout arithmetic.
- An audit event of a result is tagged in the model with the run whose transaction wrote it, so that it can be counted.
- Rotation leaves out certificate expiry and the branch that drops an unreadable staged certificate.
- Enrollment leaves out device deletion and the pinning of the authority's fingerprint; the idempotence theorem speaks about devices that are not deleted.
- Correlation leaves out heartbeats, whose messages are never waited for, and the payload type check of a reply.
- Sessions leaves out the access check itself: an access token is never compared with the version, so one issued before a change keeps its permissions until it expires. It also leaves out role descriptions, e-mail and display names, disabled identity providers, the expiry of tokens, and the width of the version column.
- Removing a directory leaves out the protected-prefix list and the `rm -rf` fallback of unprivileged callers; the path is clean, absolute and not the root. Directory listings never contain the dot entries.
- Replacing a file leaves out ownership; a directory sync is taken to settle every name of its directory.
- Pacman leaves out byte sequences that are not valid UTF-8, and the process that writes the file.
- apt, dnf and zypper drivers, process spawning, systemd control, HTTP servers, configuration, logging, the web interface except the page collector, and backoff timing.
