# Verified model of Rulefolio's protocols

Rulefolio keeps board-game works, their rule materials, playtest sessions, feedback and issues.
Several of its services are protocols over database rows: compare-and-set updates, fencing claims,
row and advisory locks, crash recovery. This project models them in Dafny 4.11 and proves what they
keep, over every run and every interleaving. `dafny verify dfyconfig.toml` checks everything.

Each protocol is modelled twice. A module of table functions (`Outbox`, `Files`, `Issues`, `Feedback`,
`Recovery`, `Credentials`, `Playtests`, ...) says what one committed transaction or one external call
does, and a run is a sequence of such steps by any number of actors. Beside it a class (`OutboxStore`,
`FileStore`, `IssueStore`, `FeedbackStore`, `RecoveryStore`, `IdentityStore`, `PlaytestStore`) performs
the service's functions statement by statement, with its loops, on tables it updates in place; the
contracts of its methods say that they do what the table functions do, and when they refuse.

| module | protocol |
|---|---|
| `Outbox`, `OutboxProofs`, `OutboxTheorems`, `OutboxTodos`, `OutboxStore` | mail outbox: claims, the start of SMTP, outcomes, stale recovery, todos, retries, restricted recovery |
| `LinkLocks` | linking issues to feedback against saving drafts, lock step by lock step |
| `Files`, `FileLoss`, `FileStore` | uploads and their recovery over a row and an object store; when an object can be lost; quota |
| `Issues`, `IssuesProofs`, `IssueOverview`, `IssueStore` | issues, retests and conclusions by adjustment generation; their todos; three views of a conclusion |
| `Feedback`, `FeedbackProofs`, `FeedbackStore`, `Text` | typed answers over questions that can change until first answered |
| `ObjectDigest`, `ObjectCollision`, `Recovery`, `RecoveryStore` | canonical object list and what collides with it, object agreement, staged reopening |
| `Attempts`, `Credentials`, `IdentityStore` | attempt windows, one-time credentials, recovery jobs |
| `Overview`, `Listing` | the SQL of the playtest overview; lists and pages |
| `Playtests`, `PlaytestStore` | capacity, session lifecycle, result validation |
| `Base` | identifiers, optional values, bulk updates |

## What the code does not keep

These properties fail in the code as it is. The model follows the code; each has a proof of when the
property holds.

- A closed or revoked todo silences its mails, but a deleted one does not always: deleting the todos of a
  revoked work access empties the mails' references, and a mail in its SMTP conversation whose server
  then answers with a failure is queued and sent again (`DeletedTodoSilence`, `DeletedTodoMailIsSentAgain`).
- Reopening an issue without changing its note does not bring a settled retest todo back, because the
  source key of its generation is taken (`ReopeningAsksOnlyUnasked`, `ReopenedIsNotAsked`).
- Creating an issue from feedback can deadlock with participants who change that feedback, in two ways. Its
  references may share the 64-bit hash of their advisory locks. Or a maintainer has no todo about the feedback
  yet, say a new one: submitting it again inserts that todo, whose foreign key waits for the work row that the
  creation holds, while the creation waits for the submission. Nothing else deadlocks (`DeadlockIffExposed`,
  `DeadlockIffAnyReference`), and a single saver never does (`OneSaverNeverDeadlocks`).
- An uploader that is still active after its row became recoverable can delete the object of a ready file;
  `LossIffEndangered` says from which states.
- A manifest accepts keys that contain NUL. Any two objects or more then share their hashed bytes with another
  list, and one object does exactly if its key can be split (`CollidesIff`). Two objects or more without NUL
  share them with an accepted list exactly if two neighbouring keys are short (`ManifestCollidesIffShort`).
  The keys that the file service makes are too long for that (`LongKeysAreSafe`).
- The attempt limit does not hold for the very first requests of a subject: without a row there is nothing
  to lock, and any number of overlapping requests pass (`BoundedIffRowExists`).
- `retry_after` is cut to whole seconds, so waiting exactly that long may not be enough (`RetryAfterIsClose`).
- A page of the overview beyond the last one reports a total of 0 (`TotalIsRightIffPageExists`).

## Model

| member | source | states |
|---|---|---|
| `OutboxProofs.RunKeepsInv` | src/app/notifications/dispatcher.py:91-399 | every interleaving of dispatchers (crashing anywhere), stale recovery, todo and envelope changes and restricted recovery keeps claims, attempt counts, timestamps, envelopes and the history of conversations consistent |
| `OutboxTheorems.SendsBounded` | src/app/notifications/dispatcher.py:91-399 | in every run from an empty outbox each mail has at most `mail_max_attempts` SMTP conversations, although its attempt count may exceed that number |
| `OutboxTheorems.ResendOnlyAfterFailure` | src/app/notifications/dispatcher.py:276-293 | every conversation of a mail but its last ended in an explicit failure on an attempt below the limit; never after an acceptance or an unknown result |
| `OutboxTheorems.ClaimSendsOnce` | src/app/notifications/dispatcher.py:174-236 | over all mails and runs one claim opens at most one conversation |
| `OutboxTheorems.OnlyStartSends` | src/app/notifications/dispatcher.py:174-220 | a history grows only by a start step of the claim that still owns an unstarted row, with the recovery stage open, the todo absent or open and the credential usable |
| `OutboxTheorems.SpentForever` | src/app/notifications/dispatcher.py:223-307 | a row that is neither unstarted nor in a retryable conversation is never sent again |
| `OutboxTheorems.CanBeSentIff` | src/app/notifications/dispatcher.py:91-307 | a mail can be sent once more in some run if and only if its credential, if any, may still be mailed, and it is unstarted with an open todo or none, or in a conversation that may still end in a retryable failure and its todo is open, absent or one that the end of a work access deletes |
| `OutboxTheorems.ClosedTodoIsSilent` | src/app/notifications/service.py:251-411 | once a todo left `open` it never reopens and no mail attached to it starts SMTP, as long as the todo is not deleted |
| `OutboxTheorems.DeletedTodoSilence` | src/app/notifications/service.py:365-383 | after `delete_work_access_todos` a business mail can be sent again if and only if it was in a conversation that may still end in a retryable failure: the foreign key empties the reference that the open-todo check relies on |
| `OutboxTheorems.DeletedTodoMailIsSentAgain` | src/app/notifications/service.py:365-383 | a concrete run from the empty outbox to such a second sending |
| `OutboxTodos.FinalForever` | src/app/notifications/dispatcher.py:223-307 | accepted, failed, cancelled and suppressed are final; an unknown result can only become suppressed |
| `OutboxTodos.BusinessTodoBound` | src/app/notifications/service.py:414-474 | a business todo owns at most two mails, at most one of them live, and at most `2 * mail_max_attempts` conversations in all |
| `OutboxTodos.RecoveryIsQuiet` | src/app/recovery/service.py:231-254 | from the commit that restricts access until the dispatcher is opened no SMTP conversation starts |
| `OutboxTodos.RestrictedRowsNeverSent` | src/app/notifications/service.py:538-558 | mails pending, unknown or claimed but unstarted at restricted recovery are suppressed, lose their envelope, and are never sent in any later run |
| `OutboxTodos.EnvelopeMatchesStatus` | src/app/notifications/service.py:251-265 | accepted, failed, unknown and suppressed mails have no token envelope, live token mails have one; nothing is claimed of cancelled ones |
| `OutboxStore.Store.RecoverStaleDispatches` | src/app/notifications/dispatcher.py:91-118 | the loop over stale rows does what the outbox action does to exactly the stale, unlocked rows, and nothing unless dispatching is allowed |
| `OutboxStore.Store.ClaimNext` | src/app/notifications/dispatcher.py:121-138 | claims the oldest due unlocked row, or nothing if there is none |
| `OutboxStore.Store.StartSmtp` | src/app/notifications/dispatcher.py:174-220 | succeeds exactly under the fencing, todo, stage and credential condition; afterwards neither this nor any other claim can start the row |
| `OutboxStore.Store.UpdateClaim` | src/app/notifications/dispatcher.py:223-236 | a result is recorded only while the claim still owns the row, and afterwards the claim owns it no more |
| `OutboxStore.Store.MarkOutcome` | src/app/notifications/dispatcher.py:261-307 | the row after each SMTP outcome, with back-off while attempts are left |
| `OutboxStore.Store.DispatchOne` | src/app/notifications/dispatcher.py:310-399 | one undisturbed dispatch: which row it takes and what becomes of it for every eligibility and outcome |
| `OutboxStore.Store.CreateTodo` | src/app/notifications/service.py:138-192 | one todo for each recipient, kind and source key; a second call returns the first, open or not |
| `OutboxStore.Store.CloseTodoBySource` | src/app/notifications/service.py:268-303 | closes the open todo of a source and stops its unstarted mails |
| `OutboxStore.Store.CloseTodosForTarget` | src/app/notifications/service.py:306-362 | the loop closes exactly the open todos of a target and kinds and stops their mails |
| `OutboxStore.Store.DeleteWorkAccessTodos` | src/app/notifications/service.py:365-383 | the loop stops the mails of exactly the maintenance todos of one recipient and work, then deletes the todos and their references |
| `OutboxStore.Store.RetryFailedMail` | src/app/notifications/service.py:414-474 | queues one more mail exactly for an open, unused, eligible todo whose latest mail failed; a repeated request key is recognised |
| `OutboxStore.Store.SuppressForRestrictedRecovery` | src/app/notifications/service.py:538-558 | afterwards no mail is unstarted or unknown, and no suppressed mail has an envelope; counts what it suppressed |
| `OutboxStore.Store.SuppressBusinessMails` | src/app/notifications/service.py:561-577 | afterwards no business mail of the scope can be started |
| `OutboxStore.Store.ClearOutboxEnvelopes` | src/app/notifications/service.py:580-599 | afterwards no mail of the credentials can be started, and the cancelled ones have no envelope |
| `LinkLocks.RunKeepsInv` | alembic/versions/20260916_16_issue_feedback_link_lock_order.py:13-41 | row locks, advisory locks and what each transaction has read stay consistent through every interleaving |
| `LinkLocks.NoLinkToDraft` | alembic/versions/20260916_16_issue_feedback_link_lock_order.py:13-41 | no committed state links an issue to a feedback draft, for any transactions and any interleaving of their lock steps |
| `LinkLocks.NoDeadlock` | alembic/versions/20260916_15_issue_feedback_link_advisory_lock.py:14-36 | in a state in which the references of every issue creation have different advisory keys and no saver waits to ask a maintainer about one of them, no group of transactions waits in a circle |
| `LinkLocks.DeadlockIffExposed` | alembic/versions/20260916_16_issue_feedback_link_lock_order.py:14-41 | while maintainers stay the same, linking transactions over given submitted references and any savers can deadlock if and only if two references of one creation share a hashed advisory key or some maintainer has no todo about one of them: submitting such feedback inserts a todo whose foreign key waits for the work row |
| `LinkLocks.DeadlockIffAnyReference` | alembic/versions/20260916_24_notification_todos.py:151 | when maintainers may change, they can deadlock if and only if the creations refer to any submission |
| `LinkLocks.OneSaverNeverDeadlocks` | src/app/evidence/service.py:1022-1059 | a single saver never deadlocks with any number of linkers whose keys differ, in particular not with one link to its own submission |
| `Files.LeavesPendingOnce` | src/app/files/service.py:308-356 | a file leaves `pending` at most once and never changes afterwards |
| `Files.RunKeepsInv` | src/app/files/service.py:388-453 | rows, stored objects, the advisory lock and all running uploaders and recoverers stay consistent in every timely run |
| `Files.ReadyFilesHaveTheirObject` | src/app/files/service.py:388-624 | in every run in which no upload step happens after the pending time is over, every ready file has a stored object of the recorded type, size and digest |
| `FileLoss.LossIffEndangered` | src/app/files/service.py:552-624 | in every state that a timely run reaches, a file can still become ready and lose its object if and only if it has not failed and an uploader of it has yet to store the object or holds on to the matching one |
| `FileLoss.SafeForever` | src/app/files/service.py:388-453 | without such an uploader no run, timely or not, leaves the file ready without its object |
| `FileLoss.LateUploadMayLoseObject` | src/app/files/service.py:552-624 | the loss is reachable from the empty system |
| `Files.QuotaHolds` | src/app/files/service.py:485-549 | pending and ready files of a work never exceed the count and byte limits of their kind, in every interleaving |
| `FileStore.SpoolUpload` | src/app/files/service.py:163-178 | the chunk loop rejects exactly the uploads over the limit and otherwise returns the whole data, its size and its digest |
| `FileStore.Store.CountLive` | src/app/files/service.py:485-549 | counts and sums exactly the live files |
| `FileStore.Store.ReserveFile` | src/app/files/service.py:485-549 | reserves exactly if count and size still fit |
| `FileStore.Store.ReconcilePending` | src/app/files/service.py:388-453 | which pending row becomes ready or failed, and when its object is deleted, for every answer of the storage |
| `FileStore.Store.RecoverPending` | src/app/files/service.py:456-482 | settles old pending rows by whether their objects match, up to the first one at which storage does not answer or access is refused; no other row or object is touched |
| `IssuesProofs.RunKeepsInv` | src/app/issues/service.py:624-1102 | every run of the issue operations keeps generations, conclusions, evidence and todos consistent |
| `IssuesProofs.ConclusionsAreCurrent` | src/app/issues/service.py:901-1001 | a conclusion is the only one of its issue and belongs to the current generation; a link of the current generation implies an adjustment note |
| `IssueOverview.QueriesAgree` | alembic/versions/20260916_23_secure_playtest_overview.py:256-308 | the database function and the query of the service, defined apart, return the same pages however the tables are listed; their totals differ exactly on pages behind the end |
| `IssueOverview.OverviewAgreesWithDetail` | src/app/issues/service.py:549-621 | in every reachable state the pages of either query, one after the other, are newest first exactly one row for each open issue that is due, with the status, conclusion and session that its detail shows; an issue is due in exactly one of the two overviews |
| `IssuesProofs.OneIssuePerKey` | src/app/issues/service.py:624-672 | a repeated creation with the same operation key never makes a second issue |
| `IssuesProofs.NeededTodoIsCurrent` | src/app/issues/service.py:423-449 | an open `retest_arrangement_needed` todo carries the current generation of an issue that has a note |
| `IssuesProofs.AdjustingUpdateAsksEveryMaintainer` | src/app/issues/service.py:753-784 | an update that changes the note of an open issue to a text leaves an open retest todo for exactly the current maintainers, one each, of the new generation |
| `IssuesProofs.ReopeningAsksOnlyUnasked` | src/app/issues/service.py:764-784 | reopening with an unchanged note leaves a maintainer an open retest todo if and only if there was none of that source before or it is still open |
| `IssuesProofs.ReopenedIsNotAsked` | src/app/issues/service.py:718-784 | in every reachable state: changing the note of an issue, closing it and reopening it with that note leaves each maintainer without an open retest todo |
| `IssuesProofs.ArrangingSettlesTodos` | src/app/issues/service.py:800-859 | arranging a retest leaves no open retest todo of the issue |
| `IssuesProofs.OneChangePerRevision` | src/app/issues/service.py:718-752 | two accepted changes of an issue never expect the same revision |
| `IssuesProofs.IssueChecksPass` | src/app/recovery/service.py:322-334 | the recovery checks on retests and issue evidence count zero in every reachable state |
| `IssueStore.Store.Notify` | src/app/issues/service.py:394-481 | the loop over maintainers adds one open todo for each that has none of this source |
| `IssueStore.Store.ValidateSources` | src/app/evidence/service.py:168-209 | accepts exactly non-empty lists of distinct linkable sources of the work |
| `IssueStore.Store.HasEvidence` | src/app/evidence/service.py:212-241 | finds whether a linked source comes from the session |
| `IssueStore.Store.CreateIssue` | src/app/issues/service.py:624-697 | creates once for each operation key, exactly when texts and sources are valid; a repetition is recognised only if words, status and sources are the same |
| `IssueStore.Store.UpdateIssue` | src/app/issues/service.py:718-797 | accepted exactly with valid texts at the expected revision; performs the update of generation, conclusions and todos |
| `IssueStore.Store.BindRetestSession` | src/app/issues/service.py:800-859 | accepted exactly for an issue with a note, a session of the work and a first link to it |
| `IssueStore.Store.WriteConclusion` | src/app/issues/service.py:960-987 | leaves the conclusion as the only one of the issue |
| `IssueStore.Store.SaveRetestConclusion` | src/app/issues/service.py:901-1001 | accepted exactly with a reason, for a link of the current generation to a started session with a recorded material and, unless evidence is insufficient, linked evidence |
| `IssueStore.Store.AddIssueEvidence` | src/app/issues/service.py:1004-1051 | adds one valid source that the issue does not have yet |
| `IssueStore.Store.RemoveIssueEvidence` | src/app/issues/service.py:1054-1102 | removes a link of the issue unless it is the last one |
| `FeedbackProofs.RunKeepsInv` | src/app/evidence/service.py:702-1059 | every run of the feedback operations keeps answers, submissions, questions and options consistent |
| `FeedbackProofs.StoredAnswersAreTyped` | src/app/evidence/service.py:794-896 | every stored answer refers to a locked question of its session and kind, sets exactly the matching field, and any option belongs to the question |
| `FeedbackProofs.UnlockedHasNoAnswers` | alembic/versions/20260916_10_playtest_feedback.py:288-305 | a question that is not locked has no answers |
| `FeedbackProofs.LockedForever` | src/app/evidence/service.py:746-791 | a locked question and its options never change again |
| `FeedbackProofs.OnlyAnswersLock` | alembic/versions/20260916_10_playtest_feedback.py:288-305 | a question is locked only by an answer to it |
| `FeedbackProofs.SubmissionReadsBack` | src/app/evidence/service.py:862-896 | a saved submission answers exactly the questions of the draft with its values and leaves all other submissions alone |
| `FeedbackProofs.LinkedStaysSubmitted` | src/app/evidence/service.py:1009-1059 | feedback that is evidence of an issue is never a draft, and a participant has one direct submission for each session |
| `FeedbackProofs.FeedbackChecksPass` | src/app/recovery/service.py:306-320 | the recovery checks on feedback answers and feedback authors count zero in every reachable state |
| `Text.TrimmedParts` | src/app/evidence/service.py:561-578 | accepted text is the input without its blank ends |
| `Text.RequiredTwice` | src/app/evidence/service.py:561-567 | accepted text is accepted again unchanged |
| `FeedbackStore.Store.CreateItem` | src/app/evidence/service.py:702-743 | creates the question once for each operation key; a repetition is recognised only if kind, question and options are the same |
| `FeedbackStore.Store.UpdateItem` | src/app/evidence/service.py:746-777 | changes exactly an unlocked question at its current revision and replaces its options |
| `FeedbackStore.Store.DeleteItem` | src/app/evidence/service.py:780-791 | deletes exactly an unlocked question with its options |
| `FeedbackStore.Store.ValidatedAnswers` | src/app/evidence/service.py:794-859 | the loop accepts exactly the non-empty lists of one fitting answer for each question, and trims them |
| `FeedbackStore.Store.ReplaceAnswers` | src/app/evidence/service.py:862-896 | the loop replaces the answers of the submission and locks every answered question |
| `FeedbackStore.Store.CreateOrganizerSubmission` | src/app/evidence/service.py:930-964 | who may record what; a repeated operation key of the same recorder changes nothing |
| `FeedbackStore.Store.UpdateOrganizerSubmission` | src/app/evidence/service.py:967-1006 | accepted exactly from the recorder of a submission that is not direct, at its current revision |
| `FeedbackStore.Store.SaveDirectSubmission` | src/app/evidence/service.py:1009-1059 | first save, repeated save and change of a participant; a linked submission does not become a draft |
| `ObjectDigest.StreamIgnoresOrder` | src/app/recovery/service.py:88-97 | every ordering of objects with distinct keys feeds the same bytes to the hash |
| `ObjectDigest.StreamDecodes` | src/app/recovery/service.py:88-97 | for keys without NUL the bytes decode back to exactly those objects |
| `ObjectDigest.StreamIsInjective` | src/app/recovery/service.py:88-97 | for distinct keys without NUL equal bytes mean equal objects, and conversely |
| `ObjectCollision.CollidesIffSeveral` | src/app/recovery/service.py:88-97 | a list of objects with distinct NUL-free keys feeds the same bytes to the hash as some other list if and only if it has at least two objects |
| `ObjectCollision.CollidesIff` | src/app/recovery/service.py:88-97 | any list with distinct keys, with NUL or without, does so if and only if it has at least two objects or its one key is the record of an object and a later key |
| `ObjectCollision.OneManifestCollidesIff` | src/app/recovery/service.py:127-146 | for a manifest of one object, the other list has admissible keys if and only if that object has a key that is not empty |
| `ObjectCollision.ManifestCollidesIffShort` | src/app/recovery/service.py:127-146 | a manifest with NUL-free keys does so for a list whose keys a manifest can hold if and only if two neighbours in the order of keys are short enough for one key |
| `ObjectCollision.CollisionIsAccepted` | src/app/recovery/service.py:124-153 | in that case a manifest accepts both lists under one declared digest, whatever the hash |
| `ObjectCollision.LongKeysAreSafe` | src/app/files/service.py:531-531 | with keys of at least 94 characters, such as the 116 that the file service makes, every accepted list with the same bytes has the same objects |
| `ObjectDigest.Digest` | src/app/recovery/service.py:88-97 | the loop hashes the canonical bytes of the sorted objects |
| `ObjectDigest.LoadObjects` | src/app/recovery/service.py:124-153 | the object list is accepted exactly if every entry is well-formed, no key repeats and the declared digest matches |
| `Recovery.AgreesIffSameMap` | src/app/recovery/service.py:341-382 | the object check passes exactly when manifest, ready files and bucket are the same map from key to size and digest |
| `Recovery.ApiOpenIsEarned` | src/app/recovery/service.py:385-436 | in every run `api_open` is preceded by the start of a recovery, a confirmation for the same recovery and manifest, and a verification of that confirmation with all counts zero and equal object lists, and nothing but crashes and settings followed |
| `Recovery.OnlyPassingVerificationOpens` | src/app/recovery/service.py:385-551 | a step opens the API exactly if it is a verification that passes, and only `open_dispatcher` on an open API opens the dispatcher |
| `Recovery.RecoverAgain` | src/app/recovery/service.py:192-228 | repeating `recover` with the same manifest while recovering changes nothing; another manifest, or the one just recovered, is refused |
| `Recovery.OutboxFollows` | src/app/recovery/service.py:460-551 | each recovery step is an enabled step of the outbox model with the same effect on the stage, or leaves the stage alone |
| `RecoveryStore.ReadObject` | src/app/recovery/service.py:369-376 | the chunk loop finds the size and the digest of the whole object |
| `RecoveryStore.ObjectChecks` | src/app/recovery/service.py:341-382 | passes exactly if the storage answers and the three object lists agree |
| `RecoveryStore.Service.RecoverTo` | src/app/recovery/service.py:192-254 | exactly when a recovery begins or is repeated, the row it leaves and what is audited |
| `RecoveryStore.Service.VerifyAndOpen` | src/app/recovery/service.py:385-457 | opens the API exactly if the row allows it and everything checks, and otherwise falls back to recovering |
| `RecoveryStore.Service.ConfirmRestrictedAccess` | src/app/recovery/service.py:481-520 | confirmation and verification together, whatever storage answers; a failed verification keeps the confirmation |
| `RecoveryStore.Service.DispatcherOpen` | src/app/recovery/service.py:523-551 | opens the dispatcher exactly for the recovery whose API is open, outside the deployment freeze |
| `Attempts.BoundedIffRowExists` | src/app/identity/service.py:186-234 | in every interleaving at most twice the maximum is admitted in any interval of window length, if and only if the subject already has a row; without one, first requests that overlap all pass the check |
| `Attempts.FirstAlone` | src/app/identity/service.py:702-719 | after a first request that no other one overlaps the bound holds in every later run |
| `Attempts.WindowsAreFull` | src/app/identity/service.py:209-234 | at most the maximum is admitted in one window, and windows start at least their length apart |
| `Attempts.RetryAfterIsClose` | src/app/identity/service.py:186-206 | the reported wait is within a second of the true one; a second more always suffices, and exactly it suffices iff the wait is below a second or a whole number of them |
| `Credentials.TraceKeepsInv` | src/app/identity/service.py:417-608 | every trace of jobs, workers, exchanges and provisioning keeps jobs and credentials consistent |
| `Credentials.OneCredentialPerJob` | src/app/identity/service.py:483-608 | whatever crashes, requeues and overlaps, a job commits at most one credential and only by completing; no credential is exchanged twice; an account has at most one live credential for each of activation and recovery |
| `Credentials.FinalForever` | src/app/identity/service.py:526-546 | a finished job never reopens and a spent credential never changes |
| `Credentials.LateWorkerIsSuperseded` | src/app/identity/service.py:557-568 | a worker whose claim was taken over changes nothing |
| `Credentials.ExchangeLeavesNone` | src/app/identity/service.py:722-806 | after an exchange no live credential of that account and purpose is left |
| `IdentityStore.Store.AttemptRetryAfter` | src/app/identity/service.py:186-206 | limits exactly at the maximum inside the window, and restarts an expired window |
| `IdentityStore.Store.RecordAttempt` | src/app/identity/service.py:209-234 | counts on in the window or starts a new one |
| `IdentityStore.Store.RequestRecovery` | src/app/identity/service.py:702-719 | queues a job exactly if the subject is not limited |
| `IdentityStore.Store.RevokeCredentials` | src/app/identity/service.py:417-433 | the loop revokes and returns exactly the live credentials of an account and purpose |
| `IdentityStore.Store.RecoverStaleJobs` | src/app/identity/service.py:502-523 | the loop queues exactly the stale unlocked jobs again, and none while the gate is closed |
| `IdentityStore.Store.ClaimRecoveryJob` | src/app/identity/service.py:483-499 | claims the oldest pending unlocked job |
| `IdentityStore.Store.FinishRecoveryJob` | src/app/identity/service.py:526-546 | finishes the job only while the claim owns it, and afterwards the claim owns it no more and the address is gone |
| `IdentityStore.Store.ProcessJob` | src/app/identity/service.py:549-608 | issues a credential exactly for an owned, readable job of an active account with a password |
| `IdentityStore.Store.ExchangeCredential` | src/app/identity/service.py:722-806 | accepted exactly for a live, unexpired credential of an account in the right status that is not limited; a refusal counts as an attempt |
| `IdentityStore.Store.ProvisionAccount` | src/app/identity/service.py:817-853 | refuses active accounts and otherwise leaves one live activation credential |
| `Overview.OverviewConserves` | alembic/versions/20260916_23_secure_playtest_overview.py:51-133 | included sessions are those without a headcount plus, over the coverage rows, completed, interrupted and unrecorded; likewise the temporary variants |
| `Overview.CoverageIsExact` | alembic/versions/20260916_23_secure_playtest_overview.py:85-96 | coverage is strictly increasing in headcount and lists exactly the headcounts that occur |
| `Overview.FilteredHeadcountIsKnown` | alembic/versions/20260916_23_secure_playtest_overview.py:67-80 | with a headcount filter no included session lacks a headcount |
| `Overview.PagesAreTheView` | alembic/versions/20260916_23_secure_playtest_overview.py:172-221 | all pages one after the other are exactly the selected sessions, newest first, once each |
| `Overview.ViewIgnoresTableOrder` | alembic/versions/20260916_23_secure_playtest_overview.py:208-221 | the view does not depend on the order of the table |
| `Listing.TotalIsRightIffPageExists` | src/app/playtests/service.py:860-907 | the reported total is right if and only if nothing is selected or the page begins before the end; on later pages it is 0 |
| `Playtests.RunKeepsInv` | src/app/playtests/service.py:1203-2003 | every run of the session operations keeps capacity, results and material copies consistent |
| `Playtests.CapacityHolds` | src/app/playtests/service.py:1954-2003 | confirmed participants never exceed the capacity, in every interleaving with rearrangements |
| `Playtests.ConfirmationsFreeze` | src/app/playtests/service.py:1333-1418 | once a session left `scheduled` its status and confirmations never change |
| `Playtests.OneChangePerRevision` | src/app/playtests/service.py:1203-1257 | every managed change raises the revision by one, so two accepted ones never expect the same |
| `Playtests.PlaytestChecksPass` | src/app/recovery/service.py:282-297 | the recovery checks on planned materials, used materials and participants count zero in every reachable state |
| `Playtests.UnexplainedResultMatchesPlan` | src/app/playtests/service.py:1590-1625 | a result without a change reason records exactly the planned rules and materials |
| `PlaytestStore.Store.ConfirmParticipation` | src/app/playtests/service.py:1954-2003 | confirms exactly a participant of a scheduled session below capacity, or one who did already, and reports the count |
| `PlaytestStore.Store.UpdateArrangement` | src/app/playtests/service.py:1203-1257 | the new capacity is never below the confirmations |
| `PlaytestStore.Store.ReplaceSessionMaterials` | src/app/playtests/service.py:1260-1330 | replaces rules and materials exactly by playable rules and ready published files of the work |
| `PlaytestStore.Store.StartSession` | src/app/playtests/service.py:1333-1367 | starts exactly a scheduled session at its revision |
| `PlaytestStore.Store.CancelSession` | src/app/playtests/service.py:1370-1418 | cancels exactly a scheduled session at its revision |
| `PlaytestStore.Store.ValidateActuals` | src/app/playtests/service.py:1558-1588 | the loop accepts exactly lists of participants and codes that each occur once, and trims them |
| `PlaytestStore.Store.ValidateResultDraft` | src/app/playtests/service.py:1533-1634 | accepts exactly the consistent drafts, and drops the change reason of an unchanged material |
| `PlaytestStore.Store.SaveSessionResult` | src/app/playtests/service.py:1669-1766 | records the result exactly for a started session at its revision |

## Left out

- PostgreSQL beyond lock conflicts: a transaction is one atomic step, except in `LinkLocks` and `Attempts`, where lock steps are explicit, and in `Files` and `Outbox`, where external calls separate the transactions. A database error means that the transaction did not happen.
- SMTP, object storage, hashing, encryption, image and document parsing: parameters or arbitrary answers; fresh identifiers are distinct.
- Clocks: readings are parameters. `Attempts` assumes one clock that does not go back; `Outbox` and `Files` compare given readings only.
- Outbox.World: whether a credential and its invitation may be mailed is the set `usable`: a credential is in it from its creation until it is lost for good, at any time; recipients, message text and key versions are left out.
- Todo sources: a source key is a value of the datatype `SourceKey` instead of its text; an issue's todo names the issue in its key.
- LinkLocks.DeadlockIffExposed: transactions of one work that link, save or submit feedback. The session row, which savers take before any other lock, other transactions that hold the work row, and the queues of waiting lockers are left out; statement timeouts and PostgreSQL's deadlock detection appear as aborts. A first submission is one step.
- Files.ReadyFilesHaveTheirObject: assumes that an uploader takes no step once its row is old enough to be recovered, which nothing in the code enforces; `FileLoss` says what happens otherwise.
- Files: the type and size check on reading an object back is its recorded content; pixel and page limits are not modelled.
- IssuesProofs.AdjustingUpdateAsksEveryMaintainer: maintainers are given by a table that may change at any time; mails of new todos are the outbox model's matter.
- IssueStore.Store.UpdateIssue: decisions are a datatype, so an unknown word is not a case.
- Issues and Feedback: that a linked submission stays submitted across concurrent lock steps is proved in `LinkLocks`; here operations on one session or issue follow one another.
- FeedbackStore.Store.ValidatedAnswers: numbers are exact, and infinite, undefined or non-numeric values are one case; integers beyond the floating-point range are not modelled.
- Recovery.ApiOpenIsEarned: the counts of the database checks are inputs. That they are zero in every reachable state is proved for planned and used materials, participants, feedback answers, feedback authors, retests and issue evidence; the checks on schema, permissions, owners, accesses and current materials are not modelled, and `feedback_recorders` can fail after a legitimate revocation.
- RecoveryStore.Service.RecoverTo: the revocation of sessions and credentials in the same transaction is in `Credentials`, the suppression of mails in `OutboxStore`; the target time and archive digest of a manifest are left out.
- ObjectDigest: characters stand for their UTF-8 bytes; lone surrogates, which cannot be encoded, are not modelled.
- ObjectCollision.ManifestCollidesIffShort: for manifests whose keys contain NUL themselves, the limit of 255 characters is considered only for one object (`OneManifestCollidesIff`); without that limit `CollidesIff` covers every list.
- Credentials: sessions, password hashing and the audit are left out; account rows change only by the operations shown and by arbitrary status changes.
- IdentityStore.Store.ExchangeCredential: the token's hash lookup is the parameter `found`; the password rules are left out.
- Login, password change and session authentication: no property beyond the attempt window.
- Overview: membership and access are the flag `allowed`; the list of play modes and the issue descriptions are left out.
- IssueOverview: the service's total is the number of selected rows; `updated_at` is any function of the issue.
- PlaytestStore.Store.UpdateArrangement: time and place of a session, notifications and the todo updates are left out.
- PlaytestStore.Store.ReplaceSessionMaterials: the copied work name, the cancelled material todos and the notices to participants of the same transaction are left out.
- PlaytestStore.Store.ConfirmParticipation: the invitation todo completed in the same transaction is left out; closing a todo by its source is a method of `OutboxStore`.
- PlaytestStore.Store.CancelSession: the suppressed mails, closed todos and notices of the same transaction are in `OutboxStore`, as methods of their own.
- Observations: only their effect on the session's revision and, in the overview, on temporary variants.
- Row-level security, workspaces, invitations, workspace exit, account deletion, exports, routers, command lines, audit rows (except those of recovery) and message texts.
