# Pontus: a verified model

Pontus pools connections between clients and PostgreSQL or MySQL servers. This project models
the parts of it whose correctness spans many steps, sessions or runs, and proves what they
promise. `dafny verify dfyconfig.toml` checks all of it.

- **Failover pause** (`FailoverPause.dfy`). Writers park on a condition variable over the read
  side of a lock; a resolver or a writer's own canceller wakes them. Each atomic instruction is
  a step, `Cond.Wait` is split into its parts, and the theorems hold in every interleaving.
- **Sessions and connections** (`Lifecycle.dfy`, `IdentitySafety.dfy`, `Affinity.dfy`,
  `CleanReturn.dfy`, `Retirement.dfy`, `SessionProgram.dfy`, `ReadYourWrites.dfy`). Any number of sessions borrow
  from one pool, authenticate, retry, replay and release. The pool lends any idle connection of
  the identity asked for, as the servers' pool set does, or in a looser setup any idle connection
  at all. `Lifecycle` is the state machine, one step for each call that can block;
  `SessionProgram` is the session's code, loops and all, with everybody else acting
  between its calls, proved to be a run of that machine.
- **Rebuilding a node** (`Rebuild.dfy`, `StandbyConfig.dfy`, `ConfigLines.dfy`, `PrimaryLine.dfy`).
  Three directories, two renames, and an agent that may die at any call; and the rewriting of the
  standby's configuration text, down to what each line assigns and how it is quoted. The agent's
  code is a class on the three directories, proved to follow the state machine.
- **The wire** (`Framing.dfy`, `AsyncWatcher.dfy`, `ReplyScanner.dfy`, `ReplyRelay.dfy`). Reading
  requests, pumping COPY data, forwarding unprompted messages and relaying replies, over streams
  cut in any way (PostgreSQL 16 documentation, sections 55.2.6, 55.2.7 and 55.7).
- **Request collapsing** (`Collapser.dfy`): one leader executes, followers wait for its record.
- **Smaller parts** (`QueryTracker.dfy`, `AdminConsole.dfy`, `LogSearch.dfy`): the tracker's
  eviction, the console's extended-query protocol (PostgreSQL 16 documentation, section 55.2.3)
  and the escaping of a search text for LIKE.

The outside world is a parameter everywhere: what the pool, a server, a client, the file system
or a tool answers is an arbitrary sequence or choice, and errors and crashes are among the answers.

## What does not hold

Eight things one might expect are false of the code. Each is shown by a concrete run or input,
and the exact condition under which it does hold is proved.

- A statement can reach another account if both sessions leave their identity empty, which is
  what the MySQL handshake does (`IdentitySafety.UnnamedSessionsMix`, `IdentitySafety.SafeExactlyWhenFaithful`).
- A connection can go back to the pool carrying what a session has run, because the release after
  a failed request does not mark it dirty, or with a reply unread, because the reset stops at the
  first end of a reply it sees (`CleanReturn.AnyoneCanSpill`, `CleanReturn.PipelineCanSpill`,
  `CleanReturn.CleanExactlyWithoutSpills`, `CleanReturn.SafeReleaseExactly`).
- A client that sends several statements at once can be given the first reply only: the relay ends
  with the read that shows it (`ReplyRelay.EndsWithFirst`, `ReplyRelay.PipelineExactly`).
- A rebuild that asks for pg_rewind can end with no usable cluster (`Rebuild.RewindCanDamage`,
  `Rebuild.SafeExactlyWithoutRewind`).
- The standby configuration can gain settings nobody asked for through a slot name with a quote
  and a line end (`StandbyConfig.SlotCanInject`, `StandbyConfig.OthersLeftAloneExactly`,
  `PrimaryLine.SlotReadBackExactly`).
- A Flush-terminated reply can lose the body of its last message, because the end is recognised
  at the header (`ReplyRelay.CutLosesTheBody`, `ReplyRelay.FlushReplyExactly`).
- A follower can be sent nothing, or an earlier reply in front of its own: the leader's record
  holds no error after an early return, and the capture appends to whatever buffer the session
  already has (`Collapser.EarlyLeaderStarvesFollower`, `Collapser.FollowerExactly`).
- A read can miss a recorded write: a position query that fails on the server returns an empty
  position without an error, and a session opened while there was no primary falls back to a
  replica it does not wait for (`ReadYourWrites.FailedTransactionForgets`,
  `ReadYourWrites.ReadSeesExactly`).

Two comments in the source differ from its code, and the model follows the code. The tracker's
clearing fall-back is said to serve a shard whose entries share one timestamp; such a shard is
emptied by the cut-off itself, and the fall-back is never reached. The size bound on a client
message is said to cap what is assembled; it can be passed by seven bytes, because the
eight-byte probe is applied after the size check.

## Model

| member | source | states |
|---|---|---|
| `FailoverPause.NoLostWakeup` | server/proxy/gateway.go:1098-1170 | In every interleaving of any number of writers, cancellers, resolvers and streams, a writer asleep on a ticket nobody has notified is owed a broadcast: the flag is still set and some resolver is on its way to clearing it, or a resolver holds the write lock between the store and the broadcast. A sleeper's own canceller has not broadcast either, so none is left asleep with a done context that its canceller has already announced. |
| `FailoverPause.EveryoneReturns` | server/proxy/gateway.go:1098-1213 | From every state of every run and under every schedule, the goroutines already started take at most a stated number of further steps, and once none can take another, even with new readers held back while a writer waits for the lock, every writer in the pause has returned: no further failover, caller or expired context is needed. |
| `FailoverPause.Descends` | server/proxy/gateway.go:1098-1213 | Every step of a started goroutine lowers the measure: a writer's next sleep, or a broadcast and all it can set going. |
| `FailoverPause.NeverStranded` | server/proxy/gateway.go:1098-1213 | From every state of every run, the goroutines already started can by themselves reach a state in which every writer has returned, no reader going in past a waiting writer. |
| `FailoverPause.FailsOnlyOnOwnContext` | server/proxy/gateway.go:1115-1136 | In every run a writer that returns an error had its own context done, although any canceller's broadcast wakes everybody. |
| `FailoverPause.PausedWhileFlagged` | server/proxy/gateway.go:1119-1136 | In every run, over any stretch since a writer called in which the flag is set in every state, that writer has not been let through; and unless its context is done it has not returned at all. |
| `FailoverPause.PassesWhileClear` | server/proxy/gateway.go:1098-1118 | Over any stretch in which the flag is clear in every state, a writer that calls has returned without an error in every state, and so never waits for the lock. |
| `FailoverPause.OneResolver` | server/proxy/gateway.go:1165-1213 | In every run the flag is set if and only if a failover lies between winning the compare-and-swap and storing false, and there is never more than one such failover. |
| `FailoverPause.StreamsEndedExactly` | server/proxy/replication.go:31-60 | In every run, whenever no termination is half done, a replication stream is cancelled if and only if it took its context before the latest termination. |
| `FailoverPause.InvStep` | server/proxy/gateway.go:1098-1213 | Every step of the protocol keeps the invariant over lock, flag, notify list, cancellers and stream contexts. |
| `Lifecycle.ConnectionLinearity` | server/proxy/gateway.go:519-591 | In every run of any number of sessions, the acquires minus the releases of a session are 1 if its program names a connection and 0 otherwise; while it serves, what it names is session.Server; once ended it names none; and the connections checked out to it are exactly the one it names. |
| `Lifecycle.BalanceIsHolding` | server/proxy/gateway.go:910-1019 | Between any two worlds of a run, acquires minus releases is the change in what the session holds, so nothing is released twice and nothing is dropped without a release. |
| `Lifecycle.LinearStep` | server/proxy/session_acquire.go:52-110 | Every step of every session keeps both directions of the correspondence between what a session's program names and what is checked out to it. |
| `Lifecycle.ActTouches` | server/proxy/open_session.go:137-197 | On every path of the handshake loop, the acquisition and the statement, a step touches only the connection its session names, and takes only an idle one or one newly dialled. |
| `Lifecycle.NeverReused` | server/internal/pool/conn.go:60-64 | The number of a connection that is gone never comes back in any run, so two mentions of one number are of one connection. |
| `IdentitySafety.SafeExactlyWhenFaithful` | server/proxy/session_acquire.go:184-190 | Every statement of every run is written to a connection the server authenticated as that session's account, if and only if no two sessions of different accounts can be lent each other's connections: from pools kept by identity, no two state the same identity; from one shared pool, no two have records of which one admits the other. |
| `IdentitySafety.NamedSessionsAreSafe` | server/proxy/open_session.go:137-207 | When sessions name the account they authenticate as and it is not empty, every statement of every run reaches its own account, and what is recorded on a ready idle connection is what the server authenticated. |
| `IdentitySafety.UnnamedSessionsMix` | server/internal/protocol/mysql_handler.go:26-64 | With two sessions whose identity is never filled in, as the MySQL handshake leaves it, and pools kept by identity, some run writes a statement of one to a connection authenticated as the other. |
| `IdentitySafety.IdentityStep` | server/proxy/client_auth.go:83-109 | Every step keeps the invariant that a ready connection outside the naming window carries a true record, that a session's connection is authenticated as its account, and that everything written so far reached its account. |
| `IdentitySafety.BorrowedIsTrue` | server/internal/pool/conn.go:143-149 | A connection with a true record that can be lent to a session is authenticated as that session's account. |
| `Affinity.TransactionAffinity` | server/proxy/pooling_mode.go:64-86 | In every run, mode reloads included: after a reply that leaves a transaction open or failed, a batch unfinished or a pin, and before any other reply, whatever the session writes next goes to the connection it had when that reply came (numbers are never reused). |
| `Affinity.StretchAffinity` | server/proxy/gateway.go:1008-1017 | Over any stretch of any run in which the mode is session pooling and not reloaded, everything a session with a connection writes goes to that connection. |
| `Affinity.SessionAffinity` | server/proxy/gateway.go:764-772 | In a run under session pooling in which the mode is not reloaded, any two messages of one session are written to the same connection. |
| `Affinity.WaitsEmptyHanded` | server/proxy/gateway.go:994-1017 | In a run under transaction or statement pooling without a reload, a session that has had a request answered or executed waits for the next one with a connection in hand only if its last reply left a transaction, a batch or a pin behind. |
| `CleanReturn.CleanExactlyWithoutSpills` | server/proxy/gateway.go:994-1002 | When Pontus authenticates clients, no connection in the pool carries what a session has run or a reply nobody has read, at any point of a run, if and only if no release of the run spills: none is of a live used connection after a failed request, and none is of one with replies unread that its reset does not happen to read. |
| `CleanReturn.SafeReleaseExactly` | server/internal/pool/driver.go:91-127 | Before a release: it leaves the pool clean however its reset goes, if and only if the connection is broken or never ready, or has no reply unread and, on the way out of a failed request, has not been used. |
| `CleanReturn.CleanStep` | server/proxy/session_acquire.go:222-230 | Every step but a spill keeps the pool clean, and what a session has just drawn clean. |
| `CleanReturn.AnyoneCanSpill` | server/proxy/gateway.go:1322-1325 | Wherever one client can connect, some run leaves a used connection in the pool: its client could not be given a reply. |
| `CleanReturn.PipelineCanSpill` | server/proxy/gateway.go:1335-1342 | And some run without any failure leaves one with a reply unread: the client sent two statements at once, and its session goes on. |
| `Lifecycle.ResetLeaves` | server/internal/protocol/postgres_handler.go:727-748 | The two statements of a reset, each over at the first end of a reply it reads, can leave any number of replies unread up to what was unread before, and no more. |
| `Retirement.CondemnedIsGone` | server/internal/pool/conn.go:100-101 | In every run, whatever follows: a connection drawn for a handshake it cannot carry, left by a failed replay or a failed write, or cut off by a reply's deadline, stays with the session it was condemned under until it is destroyed, and no other session ever has it. |
| `Retirement.EightAttempts` | server/proxy/open_session.go:137-197 | In every run a session that drops a connection it could not shake hands on tries again if it has dropped fewer than eight, and ends if and only if this is the eighth. |
| `Retirement.DoomedStep` | server/internal/pool/conn.go:100-101 | No step of anybody mends a broken connection, lends it or returns it to the pool. |
| `SessionProgram.ServeClient` | server/proxy/gateway.go:820-1020 | Whatever the pool, the servers, the client and the other sessions do, the session's code ends, everything it did is part of a run of the state machine, and nothing is checked out to it at the end. |
| `SessionProgram.Program.OpenSession` | server/proxy/open_session.go:137-207 | The handshake loop, under interference: after at most eight attempts the session has one connection, readied and named, or has ended. |
| `SessionProgram.Program.AcquireForSession` | server/proxy/session_acquire.go:52-110 | The search for a connection, under interference: it ends with one connection held, or with none and the session failing, rejected connections having been released. |
| `SessionProgram.Program.Judge` | server/proxy/session_acquire.go:62-88 | A connection is taken only if it is usable as this session when it is taken: ready with an admitting record, or just authenticated. |
| `SessionProgram.Program.ExecuteRequest` | server/proxy/gateway.go:519-791 | One statement, under interference: it ends with the release decision made, or with the session failing. |
| `SessionProgram.Program.HandleClient` | server/proxy/gateway.go:820-1020 | The session loop ends with the session ended and nothing checked out to it. |
| `SessionProgram.LeavesAlone` | server/proxy/gateway.go:519-591 | No step of anybody else changes a session or the connection it names. |
| `ReadYourWrites.ReadsOwnWritesExactly` | server/proxy/gateway.go:513-545 | With non-decreasing positions, every replica that passes the wait has every recorded write, if and only if no recorded position was followed by an empty answer and then by errors alone. |
| `ReadYourWrites.FailedTransactionForgets` | server/internal/protocol/postgres_handler.go:964-1008 | A concrete history on which a recorded write is forgotten: a position, then the empty answer a failed transaction gives. |
| `ReadYourWrites.RememberedIsLast` | server/proxy/gateway.go:685-690 | LastLSN is the last answer that was not an error. |
| `ReadYourWrites.WaitLsn` | server/internal/protocol/postgres_handler.go:1011-1073 | The wait succeeds if and only if some poll shows the target replayed before any poll fails, and then the replica has it. |
| `ReadYourWrites.Reader.Capture` | server/proxy/gateway.go:685-690 | LastLSN after a statement is determined by the history of answers; a read or a failed statement asks nothing. |
| `ReadYourWrites.ReadSeesExactly` | server/proxy/gateway.go:519-545 | With something recorded, every read has every recorded write whatever it finds, if and only if no record was erased and the session's home backend is a primary: the exchange after a failed wait is not waited for. |
| `ReadYourWrites.Reader.AcquireForRead` | server/proxy/gateway.go:519-545 | The code routes a read as specified, and with nothing erased and a primary for a home the server has every recorded write. |
| `Rebuild.CrashSafe` | agent/infrastructure/replication.go:92-207 | Over any number of rebuilds without pg_rewind, each failing or dying at any call, the node has a complete cluster in place, or is between the two renames with the old one and a complete new one beside it; a rebuild that did not swap left the data directory as it found it or in that window; a reported success has the copy in place. |
| `Rebuild.OldKeptUntilProven` | agent/infrastructure/replication.go:182-206 | Between the swap and the check for standby.signal the old cluster is in the previous directory, unchanged. |
| `Rebuild.OldGoesOnlyWhenProven` | agent/infrastructure/replication.go:197-206 | In every run without pg_rewind, a rebuild that reports success, or has swapped and no longer has the old cluster beside it, has had its check for standby.signal succeed. |
| `Rebuild.AllOkSucceeds` | agent/infrastructure/replication.go:92-207 | A rebuild all of whose calls succeed, of a node whose cluster is whole or damaged but recognisable, with or without pg_rewind, reports success with the copy in place as a standby and nothing beside it. |
| `Rebuild.FailureUndone` | agent/infrastructure/replication.go:405-432 | A call of a rebuild without pg_rewind fails, however far it got, and those after it succeed: before the swap, and between its two renames, the node is back on the cluster it had; a failed backup or stop leaves nothing beside it; and success is reported if and only if the call was the removal of the old cluster. |
| `Rebuild.SafeExactlyWithoutRewind` | agent/infrastructure/replication.go:139-157 | All runs of a kind of request keep the node recoverable, if and only if the request does not ask for pg_rewind. |
| `Rebuild.RewindCanDamage` | agent/infrastructure/replication.go:139-157 | A concrete run: a rewind that fails half-way and a backup that fails leave the data directory damaged with nothing to put back. |
| `Rebuild.InvStep` | agent/infrastructure/replication.go:92-207 | Every call, however it ends, keeps the invariant over the three directories and the position of the rebuild. |
| `Rebuild.Agent.Rebuild` | agent/infrastructure/replication.go:92-226 | The rebuild's code on the three directories, for every script of answers: it does nothing unless the directory looks like a cluster, and otherwise ends where playing the script through the state machine ends, with the same verdict; without pg_rewind the node is left recoverable, and on success with the copy in place. |
| `Rebuild.Agent.SwapInStaging` | agent/infrastructure/replication.go:417-432 | Two renames and the undo follow the state machine; success means the copy is in place, failure ends the rebuild. |
| `Rebuild.Agent.ClearLeftovers` | agent/infrastructure/replication.go:405-410 | Staging, then previous; the first failure ends the rebuild. |
| `StandbyConfig.IdentitySurvives` | agent/infrastructure/replication.go:475-526 | For any local files, any files the base backup brings and any connection settings, every port or listen_addresses captured before the copy is the value in force when both files are read back after the rewrite. |
| `StandbyConfig.ConfigDir.Reconfigure` | agent/infrastructure/replication.go:475-526 | Capture, copy and rewrite on the files themselves keep every captured setting in force. |
| `StandbyConfig.ConfigDir.CaptureIdentity` | agent/infrastructure/replication.go:515-526 | What is captured is the identity settings of both files, postgresql.auto.conf winning. |
| `StandbyConfig.ConfigDir.WriteStandbyConfig` | agent/infrastructure/replication.go:475-508 | The file written is the rewrite of the old one, a missing file reading as empty. |
| `StandbyConfig.StripInForce` | agent/infrastructure/replication.go:557-570 | Stripping removes from force every name the setting is a prefix of, and leaves every other value in force as it was. |
| `StandbyConfig.StripSetting` | agent/infrastructure/replication.go:557-570 | The loop over lines computes the specified stripping. |
| `StandbyConfig.SettingsIn` | agent/infrastructure/replication.go:529-553 | The loop over lines computes the identity settings in force, the last assignment winning. |
| `StandbyConfig.WrittenValue` | agent/infrastructure/replication.go:499-503 | A captured value written as a line is read back as it was. |
| `ConfigLines.AssignsExactly` | agent/infrastructure/replication.go:529-553 | A line assigns a value to a name if and only if it is blanks, the name, blanks, an equals sign, blanks, the value, blanks and perhaps a comment, the name holding no equals sign and not starting a comment, the value not empty and holding no comment sign. |
| `ConfigLines.CapturedIsLast` | agent/infrastructure/replication.go:529-553 | If a line gives an identity setting a value and no later line gives it one, that value is what is captured. |
| `ConfigLines.NothingCaptured` | agent/infrastructure/replication.go:529-553 | If no line gives it a value, nothing is captured. |
| `ConfigLines.ConninfoReadBack` | agent/infrastructure/replication.go:265-277 | The connection string, split at its spaces, is the host, the port, and the user and password if there are any, in order, if and only if none of the values holds a space. |
| `ConfigLines.DigitsRead` | agent/infrastructure/replication.go:265-277 | The port's numeral reads back as the port. |
| `PrimaryLine.FollowsThePrimary` | agent/infrastructure/replication.go:475-508 | After the rewrite, whatever was in the file and whatever is put back, primary_conninfo is in force, and unquoted and split it names the host, port, user and password of the request, given values without spaces, line ends, comment signs or backslashes. |
| `PrimaryLine.QuotingReadsBack` | agent/infrastructure/replication.go:489 | A text without backslashes, its quotes doubled and quoted, is read back as it was. |
| `PrimaryLine.SlotReadBackExactly` | agent/infrastructure/replication.go:491-494 | The slot's name, quoted without doubling, is read back as it was if and only if it holds no quote. |
| `StandbyConfig.OthersLeftAloneExactly` | agent/infrastructure/replication.go:475-508 | The rewrite leaves every setting it does not own as it was for every file, if and only if the text appended for primary and slot assigns none of them. |
| `StandbyConfig.NewlineFreeInjectsNothing` | agent/infrastructure/replication.go:265-277 | A primary, user, password and slot name without line ends meet that condition. |
| `StandbyConfig.SlotCanInject` | agent/infrastructure/replication.go:490-494 | A slot name that closes its quote and holds a line end does not: it makes two well-formed lines, and the second puts any setting in force. |
| `Framing.NothingOwedExactly` | server/proxy/gateway.go:210-223 | Nothing is owed if and only if the bytes are whole messages, possibly followed by a garbled header's tail. |
| `Framing.OneReading` | server/internal/protocol/message_framer.go:35-48 | There is at most one way to read bytes as messages. |
| `Framing.MessagesAreFrames` | server/internal/protocol/message_framer.go:35-48 | Bytes are one whole message if and only if they are a tag, the big-endian length of the body and itself, and the body. |
| `Framing.CutFrameNeed` | server/proxy/gateway.go:210-223 | What is owed on the front of a written message that holds its header is the number of its bytes that are missing. |
| `Framing.ComputeTrailingNeed` | server/proxy/gateway.go:210-223 | The loop computes what the last message still owes. |
| `Framing.NeedIsShortfall` | server/proxy/gateway.go:210-223 | Once the header of an unfinished message is there, the need is its exact shortfall: that many bytes, whatever they are, make it zero, and each byte lowers it by one. |
| `Framing.NeedIsNeeded` | server/proxy/gateway.go:210-223 | Fewer bytes than the need never finish the message, so reading exactly what is owed reads nothing past it. |
| `Framing.ReadWholeMessage` | server/proxy/gateway.go:226-262 | For every stream and chunking it ends; every byte taken is in the result in order; it reports no error if and only if nothing is owed; the result is no longer than the first read or seven bytes past the bound; and on a connection that holds up, bytes that go on to owe nothing are never reported as a failed read. |
| `Framing.ReadRequest` | server/proxy/gateway.go:184-201 | A request is exactly the bytes taken, and on success whole messages; it is refused as too large only over the bound; and on a connection that holds up, with whole messages to come, the read does not fail and brings something. |
| `Framing.ReadRequests` | server/proxy/gateway.go:184-262 | Successive requests and the bytes of the failed read are exactly the bytes taken: nothing lost, repeated or reordered; and on a connection that holds up, reading whole messages within the bound stops only at their end. |
| `Framing.RequestsAreMessages` | server/proxy/gateway.go:184-262 | On a stream of whole messages every request is a run of them, each starting where the one before ended, however the reads were cut. |
| `Framing.EndsCopyExactly` | server/proxy/copy_in.go:107-120 | A batch ends the COPY if and only if one of its messages is a CopyDone or a CopyFail. |
| `Framing.ComputeEndsCopyIn` | server/proxy/copy_in.go:107-120 | The loop computes whether a batch ends the COPY. |
| `Framing.Relay` | server/proxy/copy_in.go:80-101 | Batches written and the batch dropped are exactly the bytes taken; only the last one written can end the COPY, and the relay reports the end if and only if it does; and if nothing fails and nobody stops it, a client that ends the COPY is heard. |
| `AsyncWatcher.Run` | server/proxy/async_watcher.go:91-136 | However reads are split and deadlines expire, the client is given whole unprompted messages and the front of what was taken; when stopped, or when the server goes quiet for good, everything taken has been given; a backend sending only unprompted messages never makes the watcher leave over a message; and if the connections hold up and there is time, the client is given all it sends. |
| `AsyncWatcher.TakeHeader` | server/proxy/async_watcher.go:107-124 | A deadline before the first byte takes nothing; after it, the header is finished or the read is reported cut; a header that is there is taken. |
| `AsyncWatcher.Forward` | server/proxy/async_watcher.go:139-174 | What is forwarded is one whole message: the header and exactly its body; and one that is there is forwarded to a client that takes it. |
| `AsyncWatcher.MoreIsThere` | server/proxy/async_watcher.go:126-130 | At a message boundary of unprompted messages, what comes next is the whole of one the watcher forwards. |
| `ReplyScanner.Scanner.Feed` | server/internal/protocol/reply_scanner.go:178-240 | Scanning a piece in runs gives the end, the status and the carried state that scanning its bytes one at a time gives. |
| `ReplyScanner.OnBytesAppend` | server/internal/protocol/reply_scanner.go:178-240 | Scanning does not depend on how the bytes are cut, within one piece. |
| `ReplyRelay.FastPath` | server/proxy/gateway.go:1306-1349 | The fast relay sends the bytes, count, failure flag and state of the reference relay, for every sequence of pieces and failures. |
| `ReplyRelay.WithCapture` | server/proxy/gateway.go:1371-1418 | The capturing relay sends and reports the same as the fast one, and its capture holds every byte relayed, or nothing if that is over the bound. |
| `ReplyRelay.Capture.Write` | server/proxy/response_capture.go:61-71 | On any buffer and any bound, the buffer holds base and everything given while that fits, and nothing from the first write at which it does not. |
| `ReplyRelay.Capture.Bytes` | server/proxy/response_capture.go:74-79 | The capture is exactly base and reply unless a write found them over the bound, whatever the chunking. |
| `ReplyRelay.WholeReplyAnyPieces` | server/proxy/gateway.go:1306-1369 | One reply whose last message ends with its last byte reaches the client exactly, with the state and failure flag of its messages, however it is cut; the pump's failure is reported if and only if there is a CopyInResponse. |
| `ReplyRelay.PipelineExactly` | server/proxy/gateway.go:1306-1349 | The replies to a request holding one or more Syncs or queries reach the client whole for every cut, if and only if there is one reply. |
| `ReplyRelay.EndsWithFirst` | server/proxy/gateway.go:1335-1342 | Cut after the first of several replies, the relay sends that one and reports the exchange finished. |
| `ReplyRelay.FlushReplyExactly` | server/internal/protocol/reply_scanner.go:227-236 | A reply that ends in Flush reaches the client whole for every cut, if and only if the message that ends it is a bare header. |
| `ReplyRelay.StatusReported` | server/internal/protocol/reply_scanner.go:242-253 | However a reply is cut, the status byte of its ReadyForQuery is reported: I as idle, T or B as in a transaction, E as failed; for a Flush, in a transaction whatever it says; failed if and only if there is an E message; and a failed pump if and only if there is a G message. |
| `ReplyRelay.FlushEndsAt` | server/internal/protocol/reply_scanner.go:227-236 | A request that ends in Flush is over at the first message it waits for or an ErrorResponse, and failed in the second case only. |
| `ReplyRelay.ScanMessage` | server/internal/protocol/reply_scanner.go:204-236 | A whole message moves the scanner from boundary to boundary and sets the flags its tag says. |
| `Collapser.LeadersAndFollowers` | server/proxy/gateway.go:481-511 | In every run there is at most one registered leader for a key, and a waiting follower's call is released or still owned by a leader that will release it. |
| `Collapser.FollowerExactly` | server/proxy/gateway.go:492-510 | In every run, a follower that writes a record writes exactly the leader's reply if and only if the leader got to its response with an empty capture buffer; a leader that returned early leaves it nothing to write, and never a truncated reply. |
| `Collapser.EarlyLeaderStarvesFollower` | server/proxy/gateway.go:519-528 | A reachable state in which a follower is served nothing, without an error, after its leader gave up early. |
| `Collapser.LeaderResponse` | server/proxy/gateway.go:627-642 | What the leader records: an error if and only if the relay failed or the capture overflowed, and otherwise the captured bytes. |
| `QueryTracker.EvictStale` | pkg/observability/tracker.go:121-144 | More than half the entries go, those kept are exactly the ones seen after some instant, and the clearing fall-back is never needed. |
| `QueryTracker.MedianEvictsHalf` | pkg/observability/tracker.go:121-144 | In whatever order a shard is ranged over, at least n/2 + 1 of its n entries are not newer than the median. |
| `QueryTracker.RemoveStale` | pkg/observability/tracker.go:135-139 | The deletion loop leaves exactly the entries seen after the cut-off. |
| `QueryTracker.Tracker.Record` | pkg/observability/tracker.go:155-187 | Every call keeps each shard within its bound and the counts together within the requests and errors there have been; the statement's entry is updated, other entries are unchanged or gone. |
| `QueryTracker.StatMeans` | pkg/observability/tracker.go:155-187 | A statement's entry after any requests: their number, the sum and the maximum (zero if none is positive) of their durations, the time of the last and the number that failed. |
| `QueryTracker.NeverOverfull` | pkg/observability/tracker.go:171-176 | All shards together hold no more entries than the size given, or sixteen if that is less than one a shard. |
| `AdminConsole.Console.Dispatch` | server/proxy/admin_console.go:136-192 | The console's code makes exactly the step of the protocol machine, for every message and answer. |
| `AdminConsole.ErrorsSilence` | server/proxy/admin_console.go:246-250 | In every conversation nothing is written between an extended-protocol error and the next Sync. |
| `AdminConsole.OneReadyPerSync` | server/proxy/admin_console.go:136-192 | In every conversation there is one ReadyForQuery for each Sync and each simple query not skipped, and no other. |
| `AdminConsole.OneReplyPerParse` | server/proxy/admin_console.go:199-242 | Every conversation keeps the answers so far consistent: two are for one Parse if and only if they show the one reply computed for it. |
| `AdminConsole.AnswersAgree` | server/proxy/admin_console.go:199-210 | In every conversation any two Describe or Execute answers show the same reply if and only if they are for the same Parse. |
| `AdminConsole.Exchange` | server/proxy/admin_console.go:136-242 | A Parse, Bind, Describe and Execute that are well formed and not refused are answered in order, with the shape and then the rows of one reply in the formats bound. |
| `AdminConsole.SyncRestores` | server/proxy/admin_console.go:136-192 | After any conversation, failed or not, a Sync makes the next such exchange answered in full. |
| `LogSearch.SearchIsExact` | pkg/observability/store/log_store.go:179-182 | For every search text and message, the pattern matches if and only if the message contains the text, up to LIKE's own case folding. |
| `LogSearch.EscapedIsLiteral` | pkg/observability/store/log_store.go:231-234 | Escaped text followed by a pattern matches exactly a message that starts with the text and goes on to match the pattern. |

## Left out

- The session code of the gateway is imperative and concurrent: `Lifecycle` gives its steps on
  values, and `SessionProgram` its loops and branches over a world held as one value, so heap
  aliasing between session, backend and connection objects is not modelled.
- AsyncWatcher.Run: on a tag that is not unprompted, five header bytes are already consumed and
  are not given to the client; the claim about leaving is for unprompted messages only.
- Framing.ReadWholeMessage: does not claim a prompt return, because the eight-byte probe can wait
  for bytes past the end of the message.
- Framing.Relay: a pump stopped from outside ends its read, which is modelled; the deadline and the
  goroutine that do it, and those of the asynchronous watcher, are not.
- Collapser.FollowerExactly: takes the leader's bytes from the relay; a follower's own failure to
  write them to its client is left out. So is sharing: the record's bytes are the leader's session
  buffer, and a later request of the leader can reset and overwrite it under a slow follower.
- StandbyConfig.ConfigDir.Reconfigure: is about one run; a crash between the swap and the rewrite
  makes the next capture read the primary's settings. A file torn by a crash is not modelled.
- PrimaryLine.FollowsThePrimary: is about values that need no quoting of their own; libpq's quoting
  inside a connection string, which the code does not write, is left out.
- Rebuild.CrashSafe: assumes one rebuild at a time on a host, which nothing in the code enforces.
- ReadYourWrites.ReadSeesExactly: takes a primary to have applied every position it gave out; a
  failover to a server that is behind is left out.
- IdentitySafety.UnnamedSessionsMix: takes replies that end idle without modelling how they are
  scanned; MySQL replies go through the PostgreSQL scanner, which sees such an end in, for one, an
  error packet of ninety bytes whose error number has 0x49 for its low byte.
- CleanReturn.CleanExactlyWithoutSpills: is about setups in which Pontus authenticates clients; a
  passthrough setup resets a connection only when its client leaves.
- LogSearch.SearchIsExact: leaves out NUL characters, at which SQLite ends a text.
- QueryTracker.Tracker.Record: the lock of a shard and the atomics of the totals are not modelled;
  a call is one step.
- How a request's terminator set is computed from its messages; any set is allowed.
- Cancel routing, replication sessions apart from their contexts, shadowing, the cache, the
  middleware chain, the balancer's choice, credential exchange, TLS and timers.
- The session registry, database routing, per-database counters, the throttler, metrics, the web
  and command-line interfaces, and the SQLite repositories: plumbing, or only easy members.
