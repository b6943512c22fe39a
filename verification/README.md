# Chat backend: a verified model

This project models the services of a chat backend that keep derived or concurrent state in step
with a simpler truth, and proves what they promise. Mongo updates, Redis commands and the two Lua
scripts are the atomic actions. Where a service object updates its fields, the model has a class
whose methods are proved to have the effect of a function on values; the theorems are about those
functions and about runs of them.

| module | what it models |
|---|---|
| `Wrappers` | options, outcomes of foreign calls |
| `ChatModel` | rooms, messages, unread counters, access cache, search index and cleanup jobs; the effect of every operation, with faults of its calls as parameters |
| `ChatInvariants`, `ChatUnread`, `ChatIndex` | what every run keeps; counters against the count over all messages; the index against the messages |
| `ChatAnswers`, `RoomAnswers` | when each request goes through, what refuses it, and what it changes, without reference to the operations' own helpers |
| `ChatEffects`, `ChatRetries`, `ChatWitnesses` | what callers can rely on afterwards; retried cleanup jobs; runs that show what is not promised |
| `ChatService` | the message, room, unread-counter and reconciliation services as classes |
| `KeyStore` | the store commands with deadlines |
| `RefreshProtocol` | refresh, logout and revoke-all as interleaved commands of many requests |
| `AuthService`, `SerialRefresh` | the same requests one after the other, and the class that runs them; why an uninterrupted refresh is the serial one |
| `Idempotency`, `WsHandler` | idempotent message creation, interleaved, and the handler's own code |
| `RateLimit` | the fixed-window limiter |
| `Calls`, `CallInvariants`, `CallRuns`, `CallAnswers`, `CallTheorems`, `CallWitnesses`, `CallService` | call sessions |
| `CleanupQueue`, `CleanupRuns`, `CleanupService` | the cleanup-job queue with many workers |
| `Pagination` | keyset pages, scans and message history |
| `Reactions` | the reaction list |
| `Connections`, `ConnectionManager` | the websocket tables and fan-outs |

`dafny verify dfyconfig.toml` checks everything.

## Parameters

Clock readings, fresh ids and tokens, the outcome of every foreign call (search index, media server,
database command where a fault matters, store command where a fault matters, password hash check) and
the answers of database queries are parameters. A foreign call either returns or raises, and if it
raises it may or may not have taken effect. Text stands for its ciphertext: decryption is taken to
invert encryption, and cursor decoding to invert encoding (base64url, section 5 of RFC 4648).

## What the code does not do

These stronger statements are false of the code. Each is replaced by an exact condition or has a
witness run.

- A second delete of a message fails instead of succeeding again: it reads a variable only the first
  delete sets (`ChatEffects.DeleteAnswersIff`, `ChatEffects.SecondDeleteFails`,
  `ChatWitnesses.SecondDeleteHappens`). After a first delete whose index call failed, the second one
  fails too, yet does the clean-up (`ChatEffects.SecondDeleteRepairs`).
- The index entry of a deleted message can stay for good: when the delete's index call fails, since
  the job is queued only after it (`ChatIndex.DeleteIndexIff`,
  `ChatWitnesses.FailedUnindexLeavesEntry`), and when the cleanup job uses up its attempts
  (`ChatWitnesses.DeadLetterLeavesEntry`). `ChatIndex.StepIndexIff` is the exact condition.
- Replaying a rotated token does not always end its user's sessions: once the record of the rotated
  session has expired, the successor stays (`AuthService.ReplayEndsAllIff`,
  `AuthService.LateReplayEndsNothing`).
- A departure from a call is stored before the media room is deleted; if that fails, the call stays
  live with nobody to wait for (`CallTheorems.StrandedIff`, `CallWitnesses.StrandedCallHappens`).
- Leaving a group does not take the leaver out of the group's live call, because the clean-up checks
  an access they no longer have (`CallTheorems.LeaverStaysInCall`,
  `CallWitnesses.LeaverInCallHappens`). Removal by an admin who neither owns the room nor started the
  call does not either (`CallTheorems.DepartedMemberStaysInCall`).
- Claiming a job does not look at when it becomes available; with two workers the wait can be skipped
  (`CleanupRuns.EarlyClaimsAreStale`, `CleanupRuns.TwoWorkersOutrunTheWait`).
- A room event unregisters user-level sockets of users without access to that room
  (`Connections.StaysIff`).
- A lock lease that is overrun gives two successors, or two messages
  (`RefreshProtocol.OverrunHappens`, `Idempotency.OverrunDuplicates`).
- A limit of zero rows would make every listing empty; the routers require at least one row, and the
  pagination theorems ask for it.

## Model

| member | source | states |
|---|---|---|
| `ChatUnread.CounterIsTrueUnread` | app/modules/messages/unread/service.py:26-118 | After any serial run whose sends do not fail, a member's counter (no row counting as 0) is the number of undeleted messages of the room the member neither sent nor read; nobody else has a row. |
| `ChatUnread.CounterWithinBounds` | app/modules/messages/service.py:388-571 | With faults anywhere in sends and forwards, the counter of one user in one room is off the true count by no more than what the faulty sends did to that very user since the counter was last set, clamps at 0 included. |
| `ChatUnread.CounterIsCountPlusTakenBack` | app/modules/messages/service.py:388-571 | While no send leaves the user short of a message that stays, the counter equals the true count plus the sends that counted this user and were taken back. |
| `ChatUnread.CounterWithinFailedSends` | app/modules/messages/service.py:388-571 | The same bounds read off the faults alone: the failed sends to the room since the last reconciliation. |
| `ChatUnread.StepDrifts` | app/modules/messages/service.py:519-946 | One operation moves the bounds on a counter by what that operation can add and no more; reconciliation resets them. |
| `ChatUnread.CountWrite` | app/modules/messages/service.py:807-856 | The count over all messages after one message is rewritten, from the count before. |
| `ChatUnread.CountAllRead` | app/modules/messages/service.py:892-946 | Marking a room read empties the reader's count there and leaves every other count alone. |
| `ChatUnread.ReadsNeverClamp` | app/modules/messages/unread/service.py:51-81 | As long as the sends up to then leave the reader's counter not short on balance, marking one message or a whole room read never meets the clamp at 0. |
| `ChatUnread.DeletesNeverClamp` | app/modules/messages/service.py:807-856 | Likewise for the decrements of a delete, for everybody who had the message unread. |
| `ChatUnread.AccessIsMembership` | app/modules/rooms/service.py:154-172 | After any serial run, an access check, cached or not, succeeds exactly for members and the creator of an existing room. |
| `ChatInvariants.RunKeepsCore` | app/modules/rooms/service.py:441-575 | In every run: member and admin lists without repetition, admins and creator are members, messages belong to existing rooms, counter rows to members, cached answers agree with membership, and queued jobs only name what is deleted. |
| `ChatInvariants.StepKeeps` | app/modules/rooms/service.py:366-575 | Every operation, with whatever faults, keeps all of that. |
| `ChatInvariants.GetForUserKeeps` | app/modules/rooms/service.py:251-254 | An access check only fills the cache, with what membership says, and answers accordingly. |
| `ChatIndex.FailedSendLeavesNoTrace` | app/modules/messages/service.py:388-432 | A send that fails at indexing or counting leaves no message and no uncovered index entry exactly when the rollback's delete took effect and its index removal or job did. |
| `ChatIndex.EditInStepIff` | app/modules/messages/service.py:729-786 | An edit that changes the text leaves database and index in step exactly for the listed outcomes of its save, index and rollback calls. |
| `ChatIndex.EditAllOrNothing` | app/modules/messages/service.py:434-493 | With an all-or-nothing save and working rollback calls, text fields and index are both new on success and both old on failure, and no other message changes. |
| `ChatIndex.RollbackReindexes` | app/modules/messages/service.py:434-493 | A failed edit whose rollback gets through leaves the old text stored and indexed, whatever the index held before, and every other entry alone. |
| `ChatIndex.DeleteIndexIff` | app/modules/messages/service.py:833-845 | After the delete of a live message its index entry is gone or covered by a job exactly if the index call took effect. |
| `ChatIndex.StepIndexIff` | app/modules/messages/service.py:388-517 | For every operation and all its faults, exactly when it puts the index entry of one message out of order: a send or forward whose rollback fell short, an edit out of step, a delete whose index call did nothing, a job given up without reaching the message. |
| `ChatIndex.IndexFollowsMessages` | app/modules/messages/service.py:495-517 | In every serial run none of whose operations does that to a message, the message is indexed under its current text while it lives, and afterwards its entry is gone or covered by a queued job. |
| `ChatWitnesses.DeadLetterLeavesEntry` | app/modules/system/cleanup_jobs/service.py:170-187 | A run in which a cleanup job becomes a dead letter and the entry of a deleted message stays with no job to remove it. |
| `ChatWitnesses.FailedUnindexLeavesEntry` | app/modules/messages/service.py:833-845 | A run in which a delete whose index call fails leaves such an entry. |
| `ChatRetries.RetriesMatchOneExecution` | app/modules/system/cleanup_jobs/service.py:97-165 | A cleanup job that breaks off anywhere, any number of times and with any other operations in between, and then gets through, leaves the store that one clean execution at the end would leave. |
| `ChatRetries.OneCleanupPerKey` | app/modules/system/cleanup_jobs/service.py:48-79 | In every run a message, and a room, has at most one cleanup job, in one state: waiting, done or given up. |
| `ChatEffects.ReadCountsOnce` | app/modules/messages/service.py:862-890 | Marking a message read takes it off the reader's count and off nobody else's; marking it again changes nothing. |
| `ChatEffects.DeleteAnswersIff` | app/modules/messages/service.py:807-856 | A delete answers well exactly the first time, to the sender, when the index call returns; then the message is marked, its entry gone and no other message touched. |
| `ChatEffects.SecondDeleteFails` | app/modules/messages/service.py:807-856 | After a delete that answered well a second one fails, whatever its index call does, and changes nothing. |
| `ChatEffects.SecondDeleteRepairs` | app/modules/messages/service.py:807-856 | After a delete whose index call raised, a second one fails too, but takes the entry out and queues the job, and does no more. |
| `ChatWitnesses.DeletedTwice` | app/modules/messages/service.py:807-856 | In every run, a message deleted well and deleted again fails the second time. |
| `ChatWitnesses.SecondDeleteHappens` | app/modules/messages/service.py:807-856 | Such a run from the empty store. |
| `ChatEffects.AddedMemberHasAccess` | app/modules/rooms/service.py:453-499 | After an add the user has access and an exact counter; nobody else's membership changed. |
| `ChatEffects.RemovedMemberIsOut` | app/modules/rooms/service.py:501-538 | After a removal the user is refused, has no row and no admin rights; nobody else's membership changed. |
| `ChatEffects.LeaverIsOut` | app/modules/rooms/service.py:540-575 | The same for one who leaves. |
| `ChatEffects.AddThenRemove` | app/modules/rooms/service.py:453-538 | Adding an outsider and removing them again restores rooms, members, admins and rows; only the cache was emptied. |
| `ChatEffects.JoinNeedsInvite` | app/modules/rooms/service.py:881-907 | A join works exactly with the current invite of a group; the user then has access and an exact counter, and nobody else joined. |
| `ChatEffects.InviteStays` | app/modules/rooms/service.py:752-782 | The first invite stays, whoever asks for one again. |
| `ChatEffects.RevokedInviteAdmitsNobody` | app/modules/rooms/service.py:859-907 | Once an invite is revoked no token admits anybody, and the old one not even after a new invite is made. |
| `ChatEffects.PromoteThenDemote` | app/modules/rooms/service.py:657-709 | A promotion gives that user alone admin rights; the demotion undoes it exactly. |
| `ChatEffects.NewGroupIsOpen` | app/modules/rooms/service.py:95-106 | A new group admits exactly its creator and the others, each listed once, with nothing unread; other rooms stay. |
| `ChatEffects.OneDmPerPair` | app/modules/rooms/service.py:108-143 | In every run two users share at most one direct room. |
| `ChatEffects.OpenDmTwice` | app/modules/rooms/service.py:108-143 | Opening a direct room again, from either side, changes nothing. |
| `ChatEffects.DeletedRoomIsEmpty` | app/modules/rooms/service.py:366-439 | After a delete the room answers nobody and has neither messages nor rows; other rooms' messages stay. |
| `ChatEffects.GoneForGood` | app/modules/rooms/service.py:366-439 | In every run, a room that is gone never comes back, nor do messages or rows of it. |
| `ChatAnswers.AccessIff` | app/modules/rooms/service.py:154-172 | An access check, cached or not, admits exactly the creator and the members, answers 404 exactly for a missing room and 403 otherwise, and fills the cache at most. |
| `ChatAnswers.SendIff` | app/modules/messages/service.py:519-620 | A send goes through exactly for a known user of the room whose foreign calls return; then one message, its index entry and one count for each other member appear, and nothing else. |
| `ChatAnswers.ForwardIff` | app/modules/messages/service.py:1099-1117 | A forward goes through exactly for a known user who may enter the target and the room of every source, all sources stored and undeleted; otherwise 404 for what is missing, then 403 for access, then 422 for a deleted source. |
| `ChatAnswers.ForwardCopiesEach` | app/modules/messages/service.py:1118-1167 | Copy i has the text and kind of source i, is from the forwarder and without mentions, and is there unless its own faults took it back; every earlier message is as it was. |
| `ChatAnswers.EditIff` | app/modules/messages/service.py:729-805 | An edit goes through exactly for the sender of an undeleted text message who may still enter the room; it replaces the body in database and index and nothing else. |
| `ChatAnswers.MarkReadIff` | app/modules/messages/service.py:862-890 | Marking a message read works exactly for a known user of its room; a message new to the reader lowers the reader's row by one, not below 0, and nothing else changes. |
| `ChatAnswers.MarkRoomReadIff` | app/modules/messages/service.py:892-946 | Marking a room read works exactly for a known user of the room; then everything new to the user is read, no other message changed, and the row fell by their number, not below 0. |
| `ChatAnswers.DeleteMarks` | app/modules/messages/service.py:807-856 | The first delete by the sender marks the message, takes out the entry as far as the index call took effect, and lowers the row of exactly those to whom the message was new. |
| `ChatAnswers.RefusedChangesNothing` | app/modules/rooms/service.py:154-172 | A request of any kind that a check refuses fills the access cache at most. |
| `RoomAnswers.CreateGroupIff` | app/modules/rooms/service.py:95-106 | A group is made exactly of known users; it is one new room with each of them once, no admins and no invite. |
| `RoomAnswers.OpenDmIff` | app/modules/rooms/service.py:108-143 | A direct room opens exactly for two different known users, and is a new one exactly if they had none. |
| `RoomAnswers.RemoveMemberIff` | app/modules/rooms/service.py:501-538 | A removal goes through exactly by a leader of the group, of a known user other than its creator; members and admins lose that user and keep their order, the row goes, nothing else changes. |
| `RoomAnswers.LeaveIff` | app/modules/rooms/service.py:540-575 | Exactly a known member other than the creator can leave a group, with the same effect. |
| `RoomAnswers.PromoteIff` | app/modules/rooms/service.py:657-683 | Exactly the creator promotes, and exactly known members; an admin or the creator stays as they are. |
| `RoomAnswers.DeleteRoomIff` | app/modules/rooms/service.py:366-439 | Only its creator deletes a room, a missing one counting as deleted; with it go exactly its messages and rows, and a job for exactly those messages is queued. |
| `RoomAnswers.RoomsChangeRightfully` | app/modules/rooms/service.py:366-907 | Whatever the operation, members come by a leader or the current invite and go by a leader or themselves, only the creator makes and unmakes admins or deletes the room, only leaders handle the invite, and kind and creator never change. |
| `RoomAnswers.CleanupOutcome` | app/modules/system/cleanup_jobs/service.py:148-165 | A completed execution of a job removes exactly the entries, cached answers and rows it is for; one that breaks off removes the entries it reached, and the job waits on or is given up. |
| `ChatService.UnreadCounterService.IncrementForNewMessage` | app/modules/messages/unread/service.py:26-49 | One upserting increment for each member but the sender, up to the fault; says whether it finished. |
| `ChatService.UnreadCounterService.Decrement` | app/modules/messages/unread/service.py:51-81 | Lowers an existing row, not below 0; never makes one. |
| `ChatService.ChatServices.RollBackSend` | app/modules/messages/service.py:388-432 | Deletes the message, then takes it out of the index or leaves a job; stops where a call raises. |
| `ChatService.ChatServices.IndexAndCount` | app/modules/messages/service.py:519-571 | Indexes and counts a stored message; a failure of either rolls back. |
| `ChatService.ChatServices.SendStored` | app/modules/messages/service.py:519-571 | Has the effect and answer of `ChatModel.SendEncrypted`, for every combination of faults. |
| `ChatService.ChatServices.Send` | app/modules/messages/service.py:595-620 | Has the effect and answer of `ChatModel.SendMessage`. |
| `ChatService.ChatServices.Forward` | app/modules/messages/service.py:1099-1167 | Has the effect and answer of `ChatModel.ForwardMessages`: every source room checked, then one send per source, failures skipped. |
| `ChatService.ChatServices.ForwardCopies` | app/modules/messages/service.py:1118-1167 | The loop of sends. |
| `ChatService.ChatServices.EditMessage` | app/modules/messages/service.py:729-805 | Has the effect and answer of `ChatModel.Edit`. |
| `ChatService.ChatServices.SaveEdit` | app/modules/messages/service.py:755-785 | Save, index, and the rollback when indexing raises. |
| `ChatService.ChatServices.MarkAllRead` | app/modules/messages/service.py:892-946 | Has the effect and answer of `ChatModel.MarkRoomRead`. |
| `ChatService.ChatServices.ReadEverything` | app/modules/messages/service.py:918-927 | One bulk update marks exactly the unread messages and returns their number, by which the counter is lowered; nothing is unread afterwards. |
| `ChatService.ChatServices.DeleteMessage` | app/modules/messages/service.py:807-856 | Has the effect and answer of `ChatModel.Delete`. |
| `ChatService.ChatServices.LowerUnreadMembers` | app/modules/messages/service.py:813-824 | Lowers the counter of exactly the members who had the message unread. |
| `ChatService.ChatServices.RunReconciliation` | app/modules/messages/unread/worker.py:51-97 | From any rows whatever the two loops leave exactly one row per member of every room, holding the count over all messages; rows that are exact already do not change. |
| `ChatService.ChatServices.RecomputeAllRooms` | app/modules/messages/unread/worker.py:58-78 | The outer loop: collects the valid pairs and overwrites their rows. |
| `ChatService.ChatServices.RecomputeRoom` | app/modules/messages/unread/worker.py:62-78 | The inner loop over one room's members. |
| `ChatService.ChatServices.DropStaleRows` | app/modules/messages/unread/worker.py:80-87 | Removes exactly the rows outside the valid pairs. |
| `ChatService.ChatServices.ExecuteJob` | app/modules/system/cleanup_jobs/service.py:148-165 | Executes a cleanup job up to the point where a call raises. |
| `RefreshProtocol.RevokedForever` | app/modules/auth/service.py:164-223 | Once a stored session is revoked, no interleaving of refreshes, logouts and revocations with stale copies, locked or not, makes it readable as unrevoked again. |
| `RefreshProtocol.AtMostOneSuccessor` | app/modules/auth/service.py:126-195 | Under any interleaving with revoking saves made within the lock's lease, at most one refresh of a session ever hands out a successor, failing saves and rollbacks included. |
| `RefreshProtocol.FailedRotationIsDead` | app/modules/auth/service.py:170-190 | A successor whose rotation failed and was rolled back is never readable as unrevoked. |
| `RefreshProtocol.OverrunTwoSuccessors` | app/platform/backends/dragonfly/service.py:486-510 | Without the assumption on the lease one token yields two successors. |
| `RefreshProtocol.OverrunHappens` | app/platform/backends/dragonfly/service.py:486-510 | The run that shows it, from a login on, whenever the lock's lease is shorter than a session's life. |
| `SerialRefresh.RefreshAlone` | app/modules/auth/service.py:126-195 | A refresh whose commands nobody interrupts does to sessions and listing exactly what `AuthService.Refresh` does, hands out the successor that one answers with, and leaves no request or lock of its own behind. |
| `SerialRefresh.LogoutAlone` | app/modules/auth/service.py:197-223 | Likewise for a logout. |
| `SerialRefresh.RevokeAllAlone` | app/platform/backends/dragonfly/service.py:450-484 | Likewise for a revocation of all sessions, in whatever order it visits them. |
| `RefreshProtocol.StepKeepsLocks` | app/platform/backends/dragonfly/adapter.py:182-195 | Locks with a running lease belong to one request each, under acquire and compare-and-delete. |
| `RefreshProtocol.StepOnlyRevokes` | app/platform/backends/dragonfly/service.py:450-484 | What one command can do to stored sessions: keep, revoke, or add a new id. |
| `AuthService.RunStaysSerial` | app/modules/auth/service.py:41-226 | In serial runs every usable session is listed under its user, and the listing outlives it. |
| `AuthService.UsableSessionsAreListed` | app/platform/backends/dragonfly/service.py:417-436 | The same, read off for one session. |
| `AuthService.RevokeAllIsComplete` | app/platform/backends/dragonfly/service.py:466-484 | After revoking all, the user has no usable session. |
| `AuthService.ReplayEndsAllIff` | app/modules/auth/service.py:126-154 | Presenting a rotated or logged-out token with its secret is always refused; it leaves its user no usable session exactly if the revoked record could still be read, or the user had none anyway. |
| `AuthService.OthersKeepTheirs` | app/platform/backends/dragonfly/service.py:417-484 | In every serial run, whatever one user's login, refresh, replay, logout or revocation does, the sessions of all other users stay as they are. |
| `AuthService.LateReplayEndsNothing` | app/modules/auth/service.py:126-154 | A run in which the record has expired, so that the replay ends nothing and the successor stays usable. |
| `AuthService.CreatedIsUsable` | app/modules/auth/service.py:41-76 | A login gives the user one usable, listed session and takes none from anybody. |
| `AuthService.LogoutEndsSession` | app/modules/auth/service.py:197-223 | A logout with the right secret ends that session and no other; with a wrong one it changes nothing. |
| `AuthService.RefreshAnswersIff` | app/modules/auth/service.py:126-195 | A refresh answers with a successor exactly for a usable session, the right secret and a returning save; the successor is usable, the old session is not. |
| `AuthService.AuthSessions.RevokeAllSessions` | app/platform/backends/dragonfly/service.py:466-484 | The loop over the listing revokes exactly the listed sessions that still exist. |
| `AuthService.AuthSessions.RefreshSession` | app/modules/auth/service.py:126-195 | Has the effect and answer of `AuthService.Refresh`. |
| `Idempotency.AtMostOneMessagePerLifetime` | app/modules/ws/handler.py:320-420 | If every section fits its lease and sends are all-or-nothing, two messages for one room, user and key are never closer than the lifetime of the first one's record. |
| `Idempotency.ReplayReturnsTheMessage` | app/modules/ws/handler.py:336-346 | A lookup finds an id exactly while the key's latest message is within its record's lifetime, and finds that message. |
| `Idempotency.LateReleaseSparesOthers` | app/platform/backends/dragonfly/adapter.py:17-22 | A release, however late, never drops a lock another connection holds. |
| `Idempotency.OverrunDuplicates` | app/platform/backends/dragonfly/service.py:635-652 | A section that overruns its five-second lease allows a second message. |
| `Idempotency.OneLeasePerKey` | app/platform/backends/dragonfly/adapter.py:182-191 | At most one connection has a running lease on a key. |
| `Idempotency.RunKeepsInv` | app/modules/ws/handler.py:320-420 | The invariant behind these, over every run. |
| `WsHandler.Handler.HandleCreate` | app/modules/ws/handler.py:320-420 | Run without interruption, the handler takes exactly the protocol's steps; says when it answers busy, the recorded message, a new one or an error, and that the lock is free afterwards. |
| `WsHandler.Handler.AcquireLock` | app/platform/backends/dragonfly/adapter.py:182-191 | A fresh token if the key was free, else nothing. |
| `RateLimit.DragonflyService.IncrWithWindow` | app/platform/backends/dragonfly/adapter.py:9-15 | The script: a missing counter becomes 1 and starts its window, an existing one grows and keeps its deadline. |
| `RateLimit.DragonflyService.EnforceRateLimit` | app/platform/backends/dragonfly/service.py:38-61 | Counts the request, then compares with the limit. |
| `RateLimit.CountFromOpener` | app/platform/backends/dragonfly/adapter.py:9-15 | The count a request meets is its position after the request that opened its window. |
| `RateLimit.WindowLetsThrough` | app/platform/backends/dragonfly/service.py:38-61 | Of the n requests of a window exactly the smaller of n and the limit pass. |
| `RateLimit.IntervalBound` | app/platform/backends/dragonfly/service.py:38-61 | In any half-open interval of the window's length at most twice the limit, less one, pass. |
| `RateLimit.IntervalBoundReached` | app/platform/backends/dragonfly/service.py:38-61 | For every limit there are requests that reach this bound. |
| `RateLimit.KeysAreIndependent` | app/platform/backends/dragonfly/adapter.py:58-62 | The requests of other keys change nothing for a key. |
| `CallTheorems.EndedCallsAreAccountedFor` | app/modules/calls/service.py:158-171 | In every run, in an ended call nobody is still in, every entry is of a different user, everybody but the initiator attended, turned down or missed it, exactly one, and missed means missed when it ended. |
| `CallTheorems.AnsweredByFirstGuest` | app/modules/calls/service.py:314-327 | In every run, answered exactly when somebody but the initiator has joined, at the earliest such time; ringing implies unanswered, active answered, reason ended answered, cancelled unanswered. |
| `CallTheorems.OneLiveCallPerRoom` | app/modules/calls/service.py:261-279 | In every run no room has two live calls. |
| `CallTheorems.LiveCallsAwaitSomebody` | app/modules/calls/service.py:174-189 | While media rooms can be deleted and every invitation has a guest, a live call always has a guest who has not left. |
| `CallTheorems.StrandedIff` | app/modules/calls/service.py:405-442 | A live call stops awaiting anybody exactly when its last guest goes, by leaving or removal, and the media room cannot be deleted: the departure is stored, the end is not. |
| `CallTheorems.DepartedMemberStaysInCall` | app/modules/rooms/router.py:218-230 | The call clean-up after a room departure gets the member out of the call exactly when the actor still has room access and manages the call, and the media server lets the member go. |
| `CallTheorems.LeaverStaysInCall` | app/modules/rooms/router.py:218-230 | After the room service's own leave of a member, on whatever store, the call clean-up is refused and the leaver is still in the call. |
| `CallWitnesses.LeaverInCallHappens` | app/modules/rooms/router.py:218-230 | A run from the empty switchboard that ends with a former member in a live call. |
| `CallWitnesses.StrandedCallHappens` | app/modules/calls/service.py:405-442 | A run from the empty switchboard that ends with a live call that waits for nobody. |
| `CallTheorems.InviteIff` | app/modules/calls/service.py:261-296 | An invitation goes through exactly with access, a known caller and no live call in the room; the new call lists exactly the members. |
| `CallTheorems.JoinSeatsCaller` | app/modules/calls/service.py:305-327 | A join seats the caller, keeps a first join time, moves nobody else, and makes the call active exactly if a guest is in it. |
| `CallTheorems.LeaveTakesCallerOut` | app/modules/calls/service.py:387-442 | A leave takes out the caller alone; the call goes on exactly if it is left to somebody: after its initiator to a guest who is in it, after a guest to another guest who has not left. An ended one has the reason the answer time gives. |
| `CallAnswers.LeaveAnswer` | app/modules/calls/service.py:387-442 | A leave is stored exactly for somebody present whom the media server lets go; whether the call then goes on, ends, or fails to end with a 503, by who is still in it or due and whether the media room can be deleted. |
| `CallAnswers.RemoveAnswer` | app/modules/calls/service.py:467-519 | A removal is stored exactly by the creator of the room or the initiator, of a listed user whom the media server lets go; the call goes on exactly while another guest is due, and otherwise ends for that reason. |
| `CallAnswers.InviteAnswer` | app/modules/calls/service.py:261-296 | When an invitation is answered with success, 403, 404 or 409; a new call lists exactly those who may enter the room, each once, all invited and nothing else. |
| `CallAnswers.JoinAnswer` | app/modules/calls/service.py:305-327 | A join goes through exactly for a known user of the room while the call is live, and touches that call alone. |
| `CallAnswers.RingAnswer` | app/modules/calls/service.py:363-385 | Ringing is noted exactly for a user of the room while the call is live; the first time stays, and no other entry changes. |
| `CallAnswers.EndAnswer` | app/modules/calls/service.py:444-456 | An explicit end succeeds exactly for the creator of the room or the initiator, of an ended call or with a media server that obeys. |
| `CallAnswers.AcknowledgeAnswer` | app/modules/calls/service.py:602-614 | Exactly a participant who missed the call acknowledges it, and the first time stays. |
| `CallAnswers.RoomGoneAnswer` | app/modules/calls/service.py:632-643 | Deleting a room ends exactly its live call, if the media server obeys, and succeeds either way. |
| `CallTheorems.EndEndsIff` | app/modules/calls/service.py:444-456 | An explicit end ends a live call exactly for a manager with access and a media server that obeys: then everybody in it has left, every untouched guest has missed it, and no other entry changed; otherwise nothing changes. |
| `CallRuns.RunKeepsBoard` | app/modules/calls/service.py:213-244 | The invariant of every call, and one live call per room, over every run with a clock that does not run backwards. |
| `CallRuns.CallsOnlyMoveForward` | app/modules/calls/service.py:602-614 | From any point of a run on, a call goes from ringing to active to ended only, first times and answer time stay, and an ended call changes in acknowledgements of missed calls alone. |
| `CallInvariants.JoinedKeeps` | app/modules/calls/service.py:305-327 | A join keeps the invariant of its call. |
| `CallInvariants.EndedKeeps` | app/modules/calls/service.py:213-244 | Closing joined and marking missed participants keeps it. |
| `CallInvariants.LeftKeeps` | app/modules/calls/service.py:387-407 | A departure keeps it. |
| `CallInvariants.AcknowledgedKeeps` | app/modules/calls/service.py:602-614 | An acknowledgement keeps it, and happens to ended calls only. |
| `CallService.CallService.ParticipantState` | app/modules/calls/service.py:122-129 | The loop finds the first entry of the user, if any. |
| `CallService.CallService.EnsureParticipantState` | app/modules/calls/service.py:131-144 | Appends an entry invited at the call's creation unless there is one. |
| `CallService.CallService.CloseJoinedParticipants` | app/modules/calls/service.py:167-171 | The loop sets leftAt for exactly those in the call. |
| `CallService.CallService.MarkMissedParticipants` | app/modules/calls/service.py:154-165 | The loop sets missedAt for exactly the untouched entries other than the initiator's. |
| `CallService.CallService.EndCall` | app/modules/calls/service.py:213-244 | Has the effect and answer of `Calls.Close`: nothing is stored if the media room cannot be deleted. |
| `CallService.CallService.Join` | app/modules/calls/service.py:305-361 | Has the effect and answer of `Calls.Join`. |
| `CallService.CallService.MarkRinging` | app/modules/calls/service.py:363-385 | Has the effect and answer of `Calls.Ring`. |
| `CallService.CallService.Leave` | app/modules/calls/service.py:387-442 | Has the effect and answer of `Calls.Leave`. |
| `CallService.CallService.End` | app/modules/calls/service.py:444-456 | Has the effect and answer of `Calls.End`. |
| `CallService.CallService.RemoveParticipant` | app/modules/calls/service.py:467-519 | Has the effect and answer of `Calls.Remove`. |
| `CallService.CallService.AcknowledgeMissedCall` | app/modules/calls/service.py:602-614 | Has the effect and answer of `Calls.Acknowledge`. |
| `CallService.CallService.HandleRoomMemberRemoved` | app/modules/calls/service.py:616-630 | Has the effect and answer of `Calls.MemberGone`. |
| `CallService.CallService.HandleRoomDeleted` | app/modules/calls/service.py:632-643 | Has the effect and answer of `Calls.RoomGone`. |
| `CleanupRuns.OneExecutorPerJob` | app/modules/system/cleanup_jobs/service.py:97-113 | With any number of workers on stale lists, a job never has two executors. |
| `CleanupRuns.AttemptsCountStarts` | app/modules/system/cleanup_jobs/service.py:97-146 | Starts of the work and attempts agree but for a worker that vanished in between; attempts never exceed the maximum (or one); a dead letter has used them all. |
| `CleanupRuns.SettledOutcome` | app/modules/system/cleanup_jobs/service.py:116-212 | In every run, work that succeeded leaves its job completed; work that failed leaves it a dead letter exactly on the last attempt allowed, else pending after the smaller of a minute and two to the power of its attempts; no other job is touched. |
| `CleanupRuns.TakeNextClaims` | app/modules/system/cleanup_jobs/service.py:97-113 | A worker claims the next job of its list exactly if that is still pending, and adds one attempt to it alone. |
| `CleanupRuns.OneJobPerKey` | app/modules/system/cleanup_jobs/service.py:48-79 | Dedupe keys are unique. |
| `CleanupRuns.WritesAreBounded` | app/modules/system/cleanup_jobs/service.py:97-212 | A job is written at most twice per attempt it may have, counting down a measure on attempts and status. |
| `CleanupRuns.EndsAreFinal` | app/modules/system/cleanup_jobs/service.py:128-212 | A completed or dead-letter job never changes again. |
| `CleanupRuns.BackoffClosedForm` | app/modules/system/cleanup_jobs/service.py:189-200 | The waits after n failures add up to 2^(n+1) - 2 for n up to 5, and 62 + 60 (n - 5) beyond. |
| `CleanupRuns.OneWorkerKeepsPace` | app/modules/system/cleanup_jobs/service.py:81-212 | With one worker an attempt starts no sooner after the job's creation than the waits of its earlier failures add up to. |
| `CleanupRuns.EarlyClaimsAreStale` | app/modules/system/cleanup_jobs/service.py:97-106 | With many workers, a claim before the job is available happens only if somebody else attempted it since the claimer listed it. |
| `CleanupRuns.TwoWorkersOutrunTheWait` | app/modules/system/cleanup_jobs/service.py:97-106 | A run in which two workers retry at once instead of two seconds later. |
| `CleanupQueue.StepKeepsInv` | app/modules/system/cleanup_jobs/service.py:97-212 | Every command of every worker keeps the invariants behind these. |
| `CleanupService.PassTreatsEachOnce` | app/modules/system/cleanup_jobs/service.py:81-95 | A pass processes each listed job once and no other. |
| `CleanupService.ProcessedOutcome` | app/modules/system/cleanup_jobs/service.py:97-212 | Processing a pending job attempts and starts it once and completes it exactly if the work succeeded; when it is given up, and when it is due again; any other job is left alone. |
| `CleanupService.ProcessingIsThreeCommands` | app/modules/system/cleanup_jobs/service.py:97-146 | Processing a job is claim, read back and settle of the shared queue with nobody in between. |
| `CleanupService.CleanupJobService.Enqueue` | app/modules/system/cleanup_jobs/service.py:48-79 | Inserts the job unless its key is stored, and returns the stored one. |
| `CleanupService.CleanupJobService.RunOnce` | app/modules/system/cleanup_jobs/service.py:81-95 | The pass over the listed jobs. |
| `CleanupService.CleanupJobService.ProcessJob` | app/modules/system/cleanup_jobs/service.py:97-146 | Claims, works and settles one job; a job that is not pending is left alone. |
| `Pagination.PageHolds` | app/modules/rooms/service.py:264-302 | A page holds exactly the rows between the cursor given and the cursor returned, newest first, as many as the limit if there is a next page. |
| `Pagination.NextIff` | app/modules/rooms/service.py:288-302 | A page gives a cursor exactly if some row behind the one it was asked for is not on it, and it is the page's last row. |
| `Pagination.ScanReturns` | app/modules/calls/service.py:521-556 | Over a collection that changes between fetches, a scan returns a row exactly if it is stored when the page it belongs on is fetched; so every row there throughout is returned. |
| `Pagination.ScanDescends` | app/modules/calls/service.py:521-556 | The rows of a scan are strictly descending, so none comes twice. |
| `Pagination.StaticScanIsTheListing` | app/modules/rooms/service.py:304-316 | Over an unchanging collection a scan is the full sorted listing. |
| `Pagination.HistoryAscends` | app/modules/messages/service.py:691-727 | History pages, reversed and put last page first, are in ascending order and hold what the scan returned. |
| `Pagination.ListAllByUserUnbounded` | app/modules/rooms/service.py:304-316 | The loop in pages of 200 ends, with the full sorted listing. |
| `Pagination.DescendingIsUnique` | app/modules/rooms/service.py:288-293 | A set of rows has one descending order. |
| `Reactions.UpdateReactions` | app/modules/messages/service.py:1227-1264 | The loop computes the updated list, for any list. |
| `Reactions.ListRefinesMap` | app/modules/messages/service.py:1214-1282 | In every run the list has distinct emojis, no empty group, each user once, and stands for the map from users to emojis that toggling gives. |
| `Reactions.UpdateTogglesOrMoves` | app/modules/messages/service.py:1247-1264 | An update turns the actor's choice off if it was that emoji, else moves it there; nobody else's choice changes. |
| `Reactions.NewChoiceComesLast` | app/modules/messages/service.py:1247-1264 | A new choice goes to the end of its emoji's group, and a new group to the end of the list. |
| `Reactions.UpdateKeepsOthers` | app/modules/messages/service.py:1229-1246 | For any list, everybody else's choices stay, in the same order. |
| `Reactions.ReactThenUndo` | app/modules/messages/service.py:1227-1264 | Reacting and taking it back restores the list, group for group. |
| `Connections.RunKeepsTables` | app/modules/ws/manager.py:66-163 | In every run each socket is in exactly one list, once, the one its context names, and no list is empty. |
| `Connections.DisconnectKeepsIff` | app/modules/ws/manager.py:136-151 | Disconnecting under a room keeps the tables consistent exactly if that is the socket's room. |
| `Connections.UserDisconnectKeepsIff` | app/modules/ws/manager.py:153-163 | Likewise for user-level sockets. |
| `Connections.StaysIff` | app/modules/ws/manager.py:255-317 | A socket stays after a room event exactly if it is of another room, or has a valid token, an owner with access to the room, and a live connection; a user-level socket is dropped for lacking access to that room. |
| `Connections.HearsIff` | app/modules/ws/manager.py:255-317 | A room event is heard exactly through a registered socket of that room or at user level, with a valid token, an owner with access to the room, and a live connection. |
| `Connections.UserHearsIff` | app/modules/ws/manager.py:319-345 | A user's own event is heard exactly through their live user-level sockets with valid tokens. |
| `Connections.UserStaysIff` | app/modules/ws/manager.py:319-345 | After it exactly those of the user's user-level sockets stay that heard it, and all other sockets. |
| `Connections.OtherRoomsUntouched` | app/modules/ws/manager.py:255-317 | Other rooms' lists stay as they are. |
| `Connections.DroppedKeeps` | app/modules/ws/manager.py:303-317 | Dropping any sockets keeps the tables consistent. |
| `Connections.ConnectThenDisconnect` | app/modules/ws/manager.py:66-151 | Whoever is unregistered between a connect and its disconnect, the tables afterwards are as if the socket had never been there. |
| `Connections.UserConnectThenDisconnect` | app/modules/ws/manager.py:96-163 | Likewise for user-level sockets. |
| `Connections.DisconnectDrops` | app/modules/ws/manager.py:136-151 | Disconnecting a socket under its room takes it, and nothing else, out of all three tables. |
| `ConnectionManager.ConnectionManager.FanoutRoom` | app/modules/ws/manager.py:255-317 | Sends one copy to exactly the inspected sockets that may hear the event and are alive, and unregisters every other inspected socket. |
| `ConnectionManager.ConnectionManager.FanoutUser` | app/modules/ws/manager.py:319-345 | The same for a user event and its user's sockets. |
| `ConnectionManager.ConnectionManager.SendTo` | app/modules/ws/manager.py:259-297 | One pass tells sent, unauthorized and dead sockets apart, each exactly. |

## Left out

- HTTP routers, schemas, dependency wiring, logging, health checks: no state of their own.
- Transport of media server, storage, search and language model; token signing, password hashing, encryption, base64: foreign calls.
- "Open" failure policies of the store and the bypass lock token: the store is taken not to fail, or to fail where the model has a parameter for it.
- Pub/sub listeners, heartbeats, presence, typing and delivery events, notifications: side effects no property needs.
- Attachments, voice upload, transcription, avatars, names, pins, preferences, subscriptions, friend and block checks, search: would add one-branch facts.
- The text of a room's last-message preview: only whether its update succeeds is modelled.
- The compensation of a room delete when a later Mongo command fails, and a failing decrement after a read or a delete: those commands are taken to succeed.
- The order in which a set of source rooms is checked during a forward: first occurrence is used.
- The cached owner of a message is taken to be its sender.
- A worker process that dies leaves its job running for good: the queue has the step, but no recovery exists to model.
- Connects and disconnects in the middle of a fan-out: a fan-out runs on the tables it found.
- The order in which users are visited in a room fan-out: results are stated as sets.
- Interleavings inside one chat request: chat operations run one after the other; what they leave when a call in them raises is modelled.
- Between adding a session to a new listing and setting the listing's expiry the store has a listing without a deadline; the model gives it at once the deadline about to be set.
- Whether an execution of a cleanup job is its last attempt is a parameter of the chat model; `CleanupQueue` decides it from the attempts.
- Login's three commands, and the clock between a failed save and its rollback, are one step in `RefreshProtocol`.
- Each serial session request in `AuthService` has one clock reading.
- Room access in `Calls` is membership itself, which is what the cached check answers by `ChatUnread.AccessIsMembership`.
- `Pagination` lists rows that already passed the base query of the listing; the base query itself is not modelled.
- RefreshProtocol.AtMostOneSuccessor: assumes that a refresh makes its revoking save within the lock's lease; without that it is false, as `RefreshProtocol.OverrunHappens` shows.
- Idempotency.AtMostOneMessagePerLifetime: assumes that a section looks up, sends and records within its lease and does not break off between storing and recording; without that it is false, as `Idempotency.OverrunDuplicates` shows.
