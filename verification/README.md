# Verification model of the dflockd client

This Dafny project models the Python client of the dflockd lock server and proves properties of
the model. It covers five parts of the client:

- the synchronous lock object with its renew threads, as a machine of interleaved steps
  (`SyncMachine`, `SyncRuns`), with what holds in every run (`SyncAlways`, `SyncProgress`, `SyncReturns`,
  `SyncSends`), what holds as long as certain steps do not occur (`SyncInvariant`, `SyncTheorems`, `SyncLease`,
  `SyncTold`), exactly when that ends (`SyncPaths`, `SyncSlip`, `SyncSlipKinds`, `SyncWitness`), and whole lives
  of an instance (`SyncLives`); and as a class (`SyncClient`);
- the asynchronous lock object with its renew tasks and a cancellation possible at every await
  (`AsyncMachine`, `AsyncInvariant`, `AsyncTheorems`, `AsyncCleanup`, `AsyncLife`, `AsyncReturns`, `AsyncTold`,
  `AsyncSends`, `AsyncLives`, `AsyncClient`);
- the transport that any number of callers share (`Transport`, `Connection`);
- the line protocol (`Utf8`, `Decimal`, `Requests`, `RequestStream`, `Responses`, `ReplyStream`, `Fence`);
- the timing of lease renewal (`Renewal`).

`Session` is the grammar of one connection's conversation, `Lifecycle` the abstract machine that both
clients run, and `Attempts` the result of each call as a function of its I/O outcomes, which both client
classes meet. `Runs` is what all machines share: sequences of steps under a rule, and what they keep.

`dafny verify dfyconfig.toml` checks the whole project.

## How the source is modelled

**Synchronous machine.** A step is one lock, event, field or I/O action of `_sync.py`; the program counters
name the lines. One user operation runs at a time (the state lock serialises them) beside any number of
workers, each with the stop event of the attempt that started it. Outcomes of dialling and of commands
(reply, error status, I/O error, timeout) are labels chosen freely. A join may give up at any time, not only
after five seconds.

**Asynchronous machine.** A step runs from one suspension point of `_async.py` to the next; at every
suspension point of a user operation the step may be a cancellation, and a cancelled task gets its
CancelledError at its next step. Taking the I/O lock always counts as a suspension point, which only adds
interleavings.

**Transport.** A closed transport is one on which every operation raises. The peer answers complete frames
in the order in which they reach it, one line each; the number of the call that a line answers is carried
along only in the model.

**Classes.** The methods of `SyncLock` and `AsyncLock` take the outcome of every I/O action, and of every
possible cancellation, as a parameter and are proved for all of them. Wire traces are ghost fields of the
connections.

**Numbers.** `renew_interval` uses a real number for Python's float ratio. `int()` is modelled for ASCII:
an optional sign and digits with single underscores, up to the interpreter's limit of 4300 digits.
Text is a sequence of Unicode scalar values.

## What the proofs found

- **Stale-worker isolation has a hole.** The repository promises (CHANGELOG.md, line 30) that a stale renew
  worker cannot update a reused lock. The code does not keep this in every interleaving. A *slip* is a step
  with which the user leaves a worker behind that still has a write to the instance to come. There are three
  kinds: a *token slip* leaves it between lines 645 and 646 of `_sync.py`, `_conn` cleared and the token not yet;
  a *lease slip* inside line 646, the token cleared and the lease not yet; an *update slip* inside
  `_update_lease` (lines 660-662). A join in close that gives up on a worker at one of these places is a slip, and so
  is any join that gives up on one inside `_update_lease`. Token and lease slips also happen without a join, when
  close finds `_conn` already None and no thread (lines 542-544 and 551-554). For that it is enough that a join
  was given up earlier, while the worker was blocked inside its renew command: the command then fails, the
  worker clears `_conn` and is preempted, close therefore skips `_io_lock`, a new attempt is granted, and the
  old worker then clears the new token and lease. `SyncWitness.IsolationFails` is such a run, and in
  `SyncWitness.SessionFails` it goes on to a conversation that no session allows.
- **Exactly which promise depends on which kind of slip.** Release order, connection conservation, deadlock
  freedom, completion of every call, raised stop events, the handler's identity check and a closed instance
  staying closed hold in every run. The session grammar, isolation of connection, token and wire, the
  unique live worker, the coherence of a held state, the refinement of the abstract machine and the meaning
  of return values hold up to the first token slip, and any token slip can break each of them
  (`SyncSlipKinds.TokenSlipIsExact`). The range of a held lease needs the absence of token and lease slips
  (`LeaseLossIsExact`), a lease of 0 after close that of token and update slips (`LeftLeaseIsExact`), and full
  isolation, lease included, that of all three (`SyncSlip.SlipIsExact`). A join given up anywhere else breaks
  nothing by itself.
- **A wait can return true on an instance at rest**, without any slip: while the failure handler stands
  between lines 645 and 646 the token is still there and the connection is not (`SyncTheorems.ReturnValues`,
  `SyncWitness.WaitAtRest`).
- **A cancelled reset leaves a held lock without renewal** in the asynchronous client (lines 505-506);
  `AsyncTheorems.OrphanedExactly` and `AsyncTheorems.HoleReachable`.
- **A reply line cut off by the end of the connection can be taken for a grant or a report** with a shorter
  lease (`ReplyStream.TruncatedGrant`, `TruncatedAcquired`, `TruncatedRenewed`), because `readline` returns an
  unfinished last line.
- A lease of one second can never be renewed in time, because of the one second floor of `renew_interval`
  (`Renewal.InTime`).
- docs/guide/architecture.md says that the asynchronous transport uses `asyncio.wait_for` (line 62) and that
  the renewal worker checks an in-flight flag (lines 113-116); the code uses `asyncio.timeout` and has no such
  flag. It also says a failed command leaves it to the caller to close the connection (lines 64-66); the code
  closes it. The model follows the code.

## Model

| member | source | states |
|---|---|---|
| Session.SessionGrammar | src/dflockd_client/_sync.py:431-522 | Every conversation the automaton allows is `auth? (l \| e \| e w)? n* r?`, each `n` and `r` carrying exactly the token granted in that conversation. |
| Session.NoOverlap | src/dflockd_client/_sync.py:73-84 | A frame is followed by its reply before another frame is sent. |
| Session.ReleaseIsLast | src/dflockd_client/_sync.py:499-509 | Nothing is sent after a release, in particular no renew of the released grant. |
| Session.WaitFollowsQueued | src/dflockd_client/_sync.py:471-495 | A wait is sent only directly after an enqueue that was answered "queued" on the same connection. |
| SyncAlways.NextAlways | src/dflockd_client/_sync.py:431-662 | Every step of the interleaved machine (user operation and any number of renew workers, at lock, event, field and I/O granularity), with joins given up anywhere, keeps the invariant of every run: lock discipline, stop events, who has which connection, and the order on the wire. |
| SyncAlways.ReleaseOrder | src/dflockd_client/_sync.py:499-509 | In every run, whether or not a join succeeded: once a release is on the wire nothing follows it on that connection, in particular no renew, and a frame is answered before the next one is sent. |
| SyncAlways.ConnectionConservation | src/dflockd_client/_sync.py:541-548 | In every run every open connection is in exactly one place: the instance's, in the hands of the operation that opens it, or in those of the failure handler that took it out and will close it; between operations with `_io_lock` free at most the instance's is open. |
| SyncAlways.ReplacedEventsSet | src/dflockd_client/_sync.py:562-567 | In every run the stop event of every earlier attempt is set, and without a `_renew_thread` that of every worker. |
| SyncAlways.HandlerFindsItsConnection | src/dflockd_client/_sync.py:640-647 | In every run, when a renew has failed, its connection is still the instance's and a token is held, so the identity check of the handler never fails. |
| SyncAlways.ClosedStaysClosed | src/dflockd_client/_sync.py:526-560 | In every run, after a finished close connection, token and thread are None, and no step of any worker changes connection or token or puts anything on a wire. |
| SyncProgress.NoDeadlock | src/dflockd_client/_sync.py:499-556 | In every run whoever waits, waits for someone lower in the order join, `_io_lock`, command mutex, so no cycle of waiting can form. |
| SyncProgress.UserCanMove | src/dflockd_client/_sync.py:499-556 | A user operation that waits for nobody can take a step. |
| SyncProgress.WorkerCanMove | src/dflockd_client/_sync.py:613-638 | A started, unfinished worker that waits for nobody can take a step. |
| SyncProgress.StoppedWorkerEnds | src/dflockd_client/_sync.py:613-662 | Once its stop event is set a worker ends after at most twenty more steps of its own. |
| SyncProgress.EveryCallCompletes | src/dflockd_client/_sync.py:431-560 | From every state of every run the operation in progress can be brought to its end with a server that never answers again and without giving up a join: the workers it joins end, and whoever holds `_io_lock` gives it back. |
| SyncInvariant.NextKeeps | src/dflockd_client/_sync.py:431-662 | Every step that is not a token slip keeps the inductive invariant that ties the user operation to the worker of the current attempt. |
| SyncTheorems.EverySession | src/dflockd_client/_sync.py:431-522 | In every run without a token slip, over any number of attempts and any interleaving, the frames on every connection form a session of the grammar with the token granted there. |
| SyncTheorems.TokenIsolation | src/dflockd_client/_sync.py:605-662 | In every run without a token slip a worker of an earlier attempt never writes `_conn` or `token`, never sends or reads, and leaves the later attempt's connection alone, also while that is still being opened. |
| SyncTheorems.HandlerIsCurrent | src/dflockd_client/_sync.py:640-647 | In every run without a token slip a worker past its stop test, up to the clearing of the token, belongs to the current attempt. |
| SyncTheorems.UniqueLiveWorker | src/dflockd_client/_sync.py:562-611 | In every run without a token slip at most one started, unfinished worker has an unset stop event; it is `_renew_thread` and its event is the current one. |
| SyncTheorems.HeldCoherence | src/dflockd_client/_sync.py:436-446 | In every run without a token slip, with no operation running and `_io_lock` free, a token is the one granted on the connection held, whose conversation stands at holding it, with a live unstopped worker. |
| SyncTheorems.StepRefines | src/dflockd_client/_sync.py:431-509 | In every run without a token slip every step is a step of the abstract machine at rest / in line / owner, or a stutter, and each change is caused by the reply to the instance's own command on its own connection, by the user taking the connection away, or by the current worker after a failed renew. |
| SyncTheorems.ReturnValues | src/dflockd_client/_sync.py:431-509 | In every run without a token slip: "acquired" and a granted true return only as owner with a worker started, "queued" only in line, a wait that finds a token returns true as owner if and only if the failure handler is not between lines 645 and 646, and everything else returns only at rest. |
| SyncLease.HeldLease | src/dflockd_client/_sync.py:436-446 | In every run without token and lease slips the lease of a held token is in [1, MAX_PROTOCOL_SECONDS] between operations. |
| SyncLease.ClosedLease | src/dflockd_client/_sync.py:526-560 | In every run without token and update slips the lease is 0 after a finished close. |
| SyncLease.StaleIsolation | src/dflockd_client/_sync.py:605-662 | In every run without a slip of any kind a worker of an earlier attempt never writes `_conn`, `token` or `lease`, never sends or reads, and leaves the later attempt's connection alone. |
| SyncSlip.SlipIsExact | src/dflockd_client/_sync.py:541-567 | A step is a slip if and only if afterwards some continuation without a further slip and without a further abandoned join lets an old worker write into, or talk on, a later attempt: the exact boundary of isolation. |
| SyncSlipKinds.TokenSlipIsExact | src/dflockd_client/_sync.py:541-567 | A step is a token slip if and only if afterwards some such continuation breaks the session grammar; and the same if and only if for token isolation, for stale workers inside a tick, for the unique live worker, for the coherence of a held state, for the refinement of the abstract machine and for the meaning of return values. |
| SyncSlipKinds.LeaseLossIsExact | src/dflockd_client/_sync.py:640-647 | A step is a token or lease slip if and only if afterwards some such continuation leaves a held token with a lease out of range. |
| SyncSlipKinds.LeftLeaseIsExact | src/dflockd_client/_sync.py:541-560 | A step is a token or update slip if and only if afterwards some such continuation leaves a closed instance with a lease other than 0. |
| SyncWitness.IsolationFails | src/dflockd_client/_sync.py:605-647 | A concrete run of two acquires in which the only abandoned join is of a worker blocked inside its renew command, and after which an old worker can clear the new attempt's token. |
| SyncWitness.SessionFails | src/dflockd_client/_sync.py:473-482 | The same run continued: the second acquire returns true with its token gone, and a wait then sends `w` on a connection that already carries a grant, which no session allows. |
| SyncWitness.WaitAtRest | src/dflockd_client/_sync.py:473-477 | A concrete run without any slip in which wait returns true on an instance at rest, because the failure handler stands between lines 645 and 646. |
| SyncReturns.CallReturns | src/dflockd_client/_sync.py:436-495 | However the rest of the call is interleaved with workers: a grant returns true ("acquired" for enqueue), "queued" is returned for an enqueue only, a timeout returns False for acquire and wait, and every other reply raises. |
| SyncReturns.FailureReturns | src/dflockd_client/_sync.py:431-490 | A failed dial, a failed or refused auth, and a command that fails before its reply make the call raise, whatever interleaves. |
| SyncReturns.PlainReturns | src/dflockd_client/_sync.py:414-477 | close returns nothing; a wait returns true at once on a held instance and raises on one without a connection. |
| SyncReturns.ReleaseReturns | src/dflockd_client/_sync.py:499-522 | From the answer to its frame to its return, however the rest is interleaved, release returns true if and only if the server confirmed. |
| SyncReturns.UnconfirmedReturns | src/dflockd_client/_sync.py:499-522 | A release that meets no confirmation from any point before its answer on returns false, whatever else happens in it. |
| SyncReturns.ReturnIsDecided | src/dflockd_client/_sync.py:436-522 | A decided value is the one that is returned, whatever the rest of the call meets. |
| SyncTold.LeaseIsTold | src/dflockd_client/_sync.py:436-662 | In every run without a slip, between operations with `_io_lock` free, the lease of a held token is what the server last said on the connection held, but for a report that the worker has read and not yet stored. |
| SyncTold.GrantStored | src/dflockd_client/_sync.py:436-490 | In every run without a slip the call that has read a grant returns with exactly its token and lease on the connection it came on, and with a new worker for the current event, whatever workers do in between. |
| SyncTold.TickGivesHoldUp | src/dflockd_client/_sync.py:623-647 | In every run without a slip a tick of the current attempt that reports nothing, although the instance is open and its event unset, has given the hold up. |
| SyncSends.ReplyToOwnFrame | src/dflockd_client/_sync.py:73-84 | In every run a reply that an operation reads directly follows, on the same connection, the frame which that operation sent. |
| SyncSends.ReportIsAnswer | src/dflockd_client/_sync.py:623-638 | In every run a tick that comes out with seconds has sent the renew of its token and has just read these seconds as its answer. |
| SyncSends.ReleaseGoesOn | src/dflockd_client/_sync.py:499-515 | A release that holds `_io_lock` and finds a connection and a token sends the release of that token on it. |
| SyncSends.ReleaseGivesUp | src/dflockd_client/_sync.py:506-522 | A release gives up only for want of a connection or a token, or when its frame failed or was not confirmed. |
| SyncSends.TickGivesUp | src/dflockd_client/_sync.py:623-634 | A tick ends without a command if and only if it finds the instance closed, its event set, no connection or no token at the check it is at. |
| SyncSends.TickGoesOn | src/dflockd_client/_sync.py:630-638 | A tick that finds its event unset, a connection and a token comes to the renew of that token on it. |
| SyncSends.RenewIsSent | src/dflockd_client/_sync.py:635-636 | There the frame written is the renew of that token. |
| SyncSends.WorkerEndsOnly | src/dflockd_client/_sync.py:613-621 | A worker ends only once its event is set, or after a tick that reported nothing. |
| SyncSends.WorkerTurns | src/dflockd_client/_sync.py:613-662 | An unstopped worker sleeps, takes `_io_lock`, ticks, stores a positive report of its tick as the lease, and sleeps again. |
| SyncSends.CommandOutcomes | src/dflockd_client/_sync.py:73-111 | At any point of a command it may fail, and on an open transport it may be answered with any decoded reply: the theorems range over all of them. |
| SyncSends.CallSends | src/dflockd_client/_sync.py:431-522 | From its start to its return, whatever interleaves, a call sends only frames of its kind: auth and `l`, auth and `e`, `w`, `r`, or nothing for close. |
| SyncLives.WholeLife | src/dflockd_client/_sync.py:431-662 | For every token and leases in range a fresh instance can, without a slip or an abandoned join, acquire with auth, renew and release: true with that token and lease, the lease then the seconds renewed, true with nothing held, and exactly these eight events on the wire. |
| SyncLives.QueuedLife | src/dflockd_client/_sync.py:450-490 | The same for enqueue, "queued", wait and a grant on the same connection. |
| AsyncInvariant.NextKeeps | src/dflockd_client/_async.py:385-642 | Every step of the asynchronous machine, including a cancellation at any suspension point, keeps the inductive invariant. |
| AsyncTheorems.EverySession | src/dflockd_client/_async.py:385-479 | In every run, whatever was cancelled, the frames on every connection form a session of the grammar with the token granted there. |
| AsyncTheorems.ReleaseOrder | src/dflockd_client/_async.py:453-479 | Once a release is on the wire no renew follows it, and two commands are never in flight together. |
| AsyncTheorems.UniqueLiveTask | src/dflockd_client/_async.py:536-553 | A task that has neither ended nor been cancelled is `_renew_task`, and there is only one. |
| AsyncTheorems.OldTaskIsolation | src/dflockd_client/_async.py:541-608 | A task that is no longer `_renew_task` writes no field, sends nothing and reads nothing; it closes the instance's connection only while the operation that cancelled it still waits for it, or after that operation was itself cancelled. |
| AsyncTheorems.HeldCoherence | src/dflockd_client/_async.py:390-400 | Between operations a token is the one granted on the connection held, with a lease in range, and is being renewed if and only if no reset was cancelled while waiting for its renew task. |
| AsyncTheorems.OrphanedExactly | src/dflockd_client/_async.py:505-508 | That hole is opened by exactly one kind of step: a cancellation in the first `_cancel_renew` of a reset, with a token held. |
| AsyncTheorems.HoleReachable | src/dflockd_client/_async.py:505-508 | A concrete run into the hole: one grant, a second acquire cancelled in its reset, and the instance holds token and open connection with nobody renewing. |
| AsyncTheorems.HandlerFindsItsConnection | src/dflockd_client/_async.py:577-594 | A renew that fails without being cancelled finds the instance open, its token held and its connection still in place. |
| AsyncTheorems.ConnectionConservation | src/dflockd_client/_async.py:483-503 | Every open connection is the instance's or is being authenticated by the operation that opened it; between operations at most one is open. |
| AsyncCleanup.CleanupSafe | src/dflockd_client/_async.py:453-503 | After a call of release() or aclose(), whatever is cancelled, fails or answers, the operation is still cleaning or has ended with connection and token None, lease 0, closed and every transport closed; it takes at most five further steps of its own, and no task can undo the outcome. |
| AsyncCleanup.NoHang | src/dflockd_client/_async.py:548-575 | From every reachable state the user operation can move on within two steps that need neither the server nor a cancellation; the renew task that release awaits while it holds the lock that task wants ends at once because it was cancelled first. |
| AsyncCleanup.CleanupCompletes | src/dflockd_client/_async.py:453-503 | A cleaning operation can always be brought to its end with a server that never answers again. |
| AsyncLife.StepRefines | src/dflockd_client/_async.py:385-508 | Every step, cancellations included, is a step of the same abstract machine as the synchronous client's. A hold or a place in line ends only at a call that gives it up at once, in the reset's or the release's way to its close, when a wait in line or a release is answered, fails or is cancelled, or when a renew of the current task cannot be sent, fails or is refused. |
| AsyncLife.ReturnValues | src/dflockd_client/_async.py:385-508 | The same meaning of return values as in the synchronous client; a cancelled call leaves nothing held unless it was cancelled in its reset. |
| AsyncReturns.CallReturns | src/dflockd_client/_async.py:390-449 | However the rest of the call is interleaved with tasks: CancelledError if and only if a later wait of the call is cancelled, and otherwise true ("acquired") for a grant, "queued" for an enqueue only, False for a timeout of acquire and wait, and an exception for every other reply. |
| AsyncReturns.FailureDecides | src/dflockd_client/_async.py:390-449 | A command that raises decides as `Attempts` says, and a cancellation at any suspension point makes the call end with CancelledError. |
| AsyncReturns.FailureReturns | src/dflockd_client/_async.py:390-449 | A failed dial, a failed or refused auth and a failed command make the call raise, or end with CancelledError if and only if a later wait is cancelled. |
| AsyncReturns.PlainReturns | src/dflockd_client/_async.py:368-431 | aclose returns nothing unless cancelled; a wait returns true at once on a held instance and raises on one without a connection. |
| AsyncReturns.ReleaseReturns | src/dflockd_client/_async.py:453-479 | From the answer to its frame to its return release returns true if and only if the server confirmed and no later wait is cancelled, CancelledError if and only if one is, and false otherwise. |
| AsyncReturns.UnconfirmedReturns | src/dflockd_client/_async.py:453-479 | A release that from any point before its answer on is neither confirmed nor cancelled returns false, whatever else happens in it. |
| AsyncTold.LeaseIsTold | src/dflockd_client/_async.py:390-608 | In every run, whatever is cancelled, the lease of a held token is what the server last said on the connection held. |
| AsyncSends.ReplyToOwnFrame | src/dflockd_client/_async.py:58-72 | In every run a reply that an operation reads directly follows, on the same connection, the frame which that operation sent. |
| AsyncSends.ReportIsAnswer | src/dflockd_client/_async.py:562-585 | In every run a task that goes on after its renew has just read the answer to it. |
| AsyncSends.ReleaseGoesOn | src/dflockd_client/_async.py:453-469 | A release that holds the I/O lock, with its task out of the way, and finds a connection and a token sends the release of that token on it. |
| AsyncSends.ReleaseCancelsFirst | src/dflockd_client/_async.py:453-458 | With a live task it cancels that and waits for it first, holding the lock. |
| AsyncSends.TickGoesOn | src/dflockd_client/_async.py:571-583 | A tick that has the I/O lock and finds the instance open, a connection and a token sends the renew of that token on it. |
| AsyncSends.TickGivesUp | src/dflockd_client/_async.py:571-585 | A tick ends without a command only if the instance is closed, connection or token is missing, or the frame cannot be sent. |
| AsyncSends.TaskEndsOnly | src/dflockd_client/_async.py:555-585 | A task ends only cancelled, or at a tick without a report. |
| AsyncSends.CommandOutcomes | src/dflockd_client/_async.py:58-87 | At any point of a command it may fail, be cancelled, and on an open transport be answered with any decoded reply. |
| AsyncSends.CallSends | src/dflockd_client/_async.py:385-479 | From its start to its return, whatever is cancelled, a call has only frames of its kind in flight. |
| AsyncLives.WholeLife | src/dflockd_client/_async.py:385-608 | For every token and leases in range a fresh instance can, uncancelled, acquire with auth, renew and release, with the same results and exactly the same eight events as the synchronous one. |
| AsyncLives.QueuedLife | src/dflockd_client/_async.py:404-449 | The same for enqueue, "queued", wait and a grant on the same connection. |
| Transport.ReplyPairing | src/dflockd_client/_sync.py:73-94 | With any number of concurrent callers, with threads or tasks, every reply that command returns answers the caller's own frame. |
| Transport.NothingOutstanding | src/dflockd_client/_async.py:58-72 | While the transport is open the only frame or reply under way is that of the call awaiting it under the mutex; with the mutex free there is none. |
| Transport.GoodLineReturns | src/dflockd_client/_sync.py:78-94 | A line that is on its way while a call awaits its reply on an open transport can be read, is the reply to that call's own frame, and is returned with the transport still open and the mutex free. |
| Transport.UndisturbedReturns | src/dflockd_client/_sync.py:73-94 | An undisturbed call on a free, open transport takes the mutex, writes its whole frame and returns the answer to it, and nothing else changes. |
| Transport.FailureKinds | src/dflockd_client/_async.py:58-72 | Which failures close the transport and which end the call only: with threads any failed write, with tasks only one behind the commitment of the frame. |
| Transport.RaisedUnheard | src/dflockd_client/_async.py:61-72 | A call that raises leaves the transport open only if none of its bytes were written. |
| Transport.NoReplyAfterFailure | src/dflockd_client/_sync.py:77-84 | After a failed write, a bad line, or a failure or cancellation while the reply is awaited, that call has raised, the transport is closed, and in every continuation nothing more passes on the wire and exactly the calls answered before keep their replies, however late the peer answers. |
| Transport.Exchanges | src/dflockd_client/_sync.py:60-66 | Bytes of different calls never interleave: a frame is completed by its own call and followed by its own reply. |
| Transport.HolderCanLeave | src/dflockd_client/_sync.py:77-84 | The holder of the command mutex can always leave it without the peer. |
| Utf8.DecodeEncode | src/dflockd_client/_protocol.py:223-227 | Decoding undoes UTF-8 encoding for every text. |
| Utf8.EncodeDecode | src/dflockd_client/_sync.py:105-111 | Strict decoding accepts only the encoding of what it returns (no overlong forms, surrogates or stray bytes). |
| Utf8.NewlineOnly | src/dflockd_client/_protocol.py:84-86 | The byte 0x0A is produced by newline characters only. |
| Utf8.PrefixCode | src/dflockd_client/_protocol.py:223-227 | One encoding begins another if and only if the one text begins the other. |
| Utf8.ByteLength | src/dflockd_client/_protocol.py:76-77 | A text has at least as many bytes as characters, and exactly as many if and only if it is ASCII. |
| Utf8.AsciiBytes | src/dflockd_client/_protocol.py:223-227 | An ASCII text is encoded as its own codes, byte for byte. |
| Utf8.EncodedBits | src/dflockd_client/_protocol.py:223-227 | The lead and tail bytes of the one, two, three and four byte forms, bit field by bit field. |
| Decimal.PrintValue | src/dflockd_client/_protocol.py:252-258 | Printed numbers are digits without a leading zero and have the number's value. |
| Decimal.ParsePrint | src/dflockd_client/_protocol.py:409-413 | `int(str(n)) == n` up to the interpreter's digit limit. |
| Decimal.IntAccepts | src/dflockd_client/_protocol.py:409-413 | `int()` takes one sign, and single underscores between digits. |
| Decimal.IntRefuses | src/dflockd_client/_protocol.py:409-413 | It refuses the empty text, a second sign, a point, and leading, trailing and doubled underscores. |
| Decimal.DigitLimit | src/dflockd_client/_protocol.py:409-413 | Digits alone are a number, with their value, if and only if there are 4300 of them at most. |
| Requests.BuildAcquireArg | src/dflockd_client/_protocol.py:230-236 | The argument is timeout, limit if present, lease if present, joined by single spaces. |
| Requests.BuildEnqueueArg | src/dflockd_client/_protocol.py:245-249 | The argument is limit if present and lease if present, joined by a single space. |
| Requests.EncodeLines | src/dflockd_client/_protocol.py:223-227 | The loop accepts the lines if and only if none contains a newline or carriage return, and then encodes each with its newline. |
| Requests.WordLimits | src/dflockd_client/_protocol.py:89-106 | A key or a token is accepted if and only if it is not empty, has no blank and at most 256 bytes; of ASCII texts 256 characters are accepted and 257 refused. |
| Requests.AuthLimits | src/dflockd_client/_protocol.py:139-142 | An auth token is accepted if and only if it has no line break and at most 65536 bytes. |
| Requests.NumberLimits | src/dflockd_client/_protocol.py:114-173 | Timeouts are accepted from 0 and leases from 1, both to 9223372036; a limit is at least 1 and goes with prefix "s" only. |
| Requests.LineLimits | src/dflockd_client/_protocol.py:89-94 | An argument line is accepted if and only if it has no line break and at most 256 bytes. |
| RequestStream.AcceptedIffValid | src/dflockd_client/_protocol.py:161-173 | The checks of a command function pass if and only if the request is valid field by field (prefix and limit, key, seconds, token, line length), and then its frame is the three lines name, key and argument. |
| RequestStream.AcceptedInNumbers | src/dflockd_client/_protocol.py:276-305 | What each command accepts, in numbers: its word, prefix, limit, lease and timeout bounds and the 256 bytes of its argument line. |
| RequestStream.FrameBytes | src/dflockd_client/_protocol.py:223-258 | The bytes of every accepted request, letter by letter. |
| RequestStream.ReadWritten | src/dflockd_client/_protocol.py:276-305 | A reader that reads arguments by position gets every valid request back from its three lines. |
| RequestStream.WrittenRead | src/dflockd_client/_protocol.py:261-305 | Only the lines that the client writes for a request are read as that request. |
| RequestStream.StreamRoundTrip | src/dflockd_client/_protocol.py:223-305 | Cutting the concatenated frames of any sequence of valid requests at byte 0x0A and decoding gives exactly that sequence. |
| RequestStream.StreamUnique | src/dflockd_client/_protocol.py:223-305 | Conversely a byte stream that decodes to a sequence of requests is the stream the client writes for it. |
| RequestStream.ArgumentsCollide | src/dflockd_client/_protocol.py:230-236 | Two acquire arguments are the same text if and only if the timeouts agree and the numbers behind them do, so limit without lease and lease without limit collide and only the prefix tells them apart. |
| Responses.WordsSpell | src/dflockd_client/_protocol.py:395-406 | `str.split()` returns exactly the words that the text spells, with Python's whitespace. |
| Responses.GrantGrammar | src/dflockd_client/_protocol.py:347-353 | parse_grant_response returns (token, lease) if and only if the line begins with "ok " and spells ok, the token and a number in [1, MAX_PROTOCOL_SECONDS]. |
| Responses.EnqueueGrammar | src/dflockd_client/_protocol.py:363-371 | The same for parse_enqueue_response: "queued", or acquired, token and number; everything else is a status. |
| Responses.RenewGrammar | src/dflockd_client/_protocol.py:356-360 | The same for parse_renew_response, where zero seconds are allowed. |
| Responses.GrantOutcome | src/dflockd_client/_protocol.py:347-353 | Every line has exactly one outcome: timeout, a status error, a malformed grant, or a grant with a non-empty token word and a lease in range. |
| Responses.EnqueueOutcome | src/dflockd_client/_protocol.py:363-371 | Every answer to an enqueue has exactly one outcome: queued, a status error, a malformed grant, or a grant with a non-empty token word and a lease in range. |
| Responses.RenewOutcome | src/dflockd_client/_protocol.py:356-360 | Every answer to a renew has exactly one outcome: a status error, a malformed answer, or seconds in range; an expired lease is reported for exactly one text. |
| Responses.StatusExact | src/dflockd_client/_protocol.py:312-327 | Each of the eight codes is mapped to its class and nothing else is. |
| Responses.StatusCodes | src/dflockd_client/_protocol.py:312-327 | The eight codes spelled out, and three texts that are none. |
| Responses.ReleaseAnswer | src/dflockd_client/_protocol.py:374-376 | A release is confirmed by the line "ok" and by no other; any other line is the status whose code it is. |
| Responses.AuthAnswer | src/dflockd_client/_protocol.py:379-381 | Auth passes with "ok" only; "error_draining" is told apart, and everything else is denied. |
| Responses.GrantReplies | src/dflockd_client/_protocol.py:347-353 | To acquire and wait a line means a timeout if and only if it is "timeout", a grant of t for n seconds if and only if it spells that, and a refusal otherwise. |
| Responses.EnqueueReplies | src/dflockd_client/_protocol.py:363-371 | To enqueue a line means "queued" if and only if it is that, a grant if and only if it spells acquired, token and seconds, and a refusal otherwise. |
| Responses.OtherReplies | src/dflockd_client/_protocol.py:356-381 | To a renew a line means n seconds if and only if it spells ok and n; to a release and an auth it means done if and only if it is "ok"; otherwise a refusal. |
| Responses.RepliesInBounds | src/dflockd_client/_protocol.py:409-419 | Whatever line the server sends in answer to whatever frame, the seconds that reach the lifecycle are in range. |
| Responses.GrantRoundTrip | src/dflockd_client/_protocol.py:347-353 | A printed grant is parsed back, for every token that is a non-empty word and every lease in range. |
| Responses.AcquiredRoundTrip | src/dflockd_client/_protocol.py:363-371 | The same for enqueue. |
| Responses.RenewRoundTrip | src/dflockd_client/_protocol.py:356-360 | The same for renew. |
| Responses.GrantStable | src/dflockd_client/_protocol.py:395-399 | Printing a parsed grant and parsing it again changes nothing, however the first text was spelled. |
| Responses.RenewStable | src/dflockd_client/_protocol.py:402-406 | The same for renew. |
| Responses.EnqueueStable | src/dflockd_client/_protocol.py:395-399 | The same for enqueue. |
| ReplyStream.ReadReplyOf | src/dflockd_client/_sync.py:86-111 | A line that a server sends is read back as it is, and nothing behind it is touched. |
| ReplyStream.RepliesRoundTrip | src/dflockd_client/_sync.py:86-111 | A whole stream of reply lines is read in order and used up exactly. |
| ReplyStream.ReadCrLf | src/dflockd_client/_sync.py:86-111 | A line that the server ends with carriage return and newline is read as the line without them. |
| ReplyStream.ReplyLimit | src/dflockd_client/_sync.py:86-111 | 1048576 bytes are accepted as a line, and one more is too many. |
| ReplyStream.CutLine | src/dflockd_client/_sync.py:86-111 | When the connection ends inside a line of any length and text, or just before its newline: between two characters the beginning of the line is taken for a whole line, inside a character or beyond the length limit it is refused, and with nothing read the end is noticed. |
| ReplyStream.TruncatedGrant | src/dflockd_client/_sync.py:86-111 | Of all beginnings of the bytes of a grant line exactly those that reach into the number, within the length limit, are taken for a grant: of the same token, and for less than the granted time unless only the newline is missing. |
| ReplyStream.TruncatedAcquired | src/dflockd_client/_sync.py:86-111 | The same for the answer to an enqueue. |
| ReplyStream.TruncatedRenewed | src/dflockd_client/_sync.py:86-111 | The same for the answer to a renew: a cut inside the number reports a shorter lease. |
| Fence.FenceBijection | src/dflockd_client/_protocol.py:202-206 | For a valid token the fence lies in [0, 2**64), and it is n if and only if the first 16 characters are the 16 digits of n in either case. |
| Fence.FenceEqual | src/dflockd_client/_protocol.py:202-206 | Two tokens have the same fence if and only if their first halves agree but for case; the last 16 characters are ignored. |
| Fence.FenceOrder | src/dflockd_client/_protocol.py:183-206 | For lowercase prefixes numeric order of fences is lexicographic order of the prefixes. |
| Fence.FenceAccepts | src/dflockd_client/_protocol.py:180-206 | A ValueError if and only if the token has another length than 32 or a character that is no hexadecimal digit, in either half. |
| Fence.NextDigit | src/dflockd_client/_protocol.py:202-206 | Each digit adds itself to sixteen times the value so far, with the value of each digit in both cases. |
| Renewal.InTime | src/dflockd_client/_sync.py:324-327 | interval + delay < reported seconds if and only if delay < L(1 - ratio) and delay < L - 1; a report of one second or less never leaves room. |
| Renewal.IntervalShape | src/dflockd_client/_sync.py:324-327 | An interval is at least a second and shorter than any lease above one second; an unknown lease counts as thirty seconds. |
| Renewal.IntervalGrows | src/dflockd_client/_sync.py:324-327 | A longer lease is not renewed more often. |
| Renewal.IntervalValues | src/dflockd_client/_sync.py:324-327 | lease times ratio where that is a second or more, one second where it is less, and half of thirty seconds for an unknown lease at ratio 0.5. |
| Renewal.EndsTurn | src/dflockd_client/_sync.py:613-621 | The loop goes on after a tick that reported, with the event unset, and after no other turn. |
| Renewal.SleepsFollowReports | src/dflockd_client/_sync.py:613-621 | Every sleep of the loop is the interval of the last report. |
| Renewal.LeaseContinuity | src/dflockd_client/_sync.py:613-621 | In any run of the loop the renew after any sleep reaches the server while the reported lease runs if and only if the delay of that cycle fits. |
| Renewal.RenewsApart | src/dflockd_client/_sync.py:324-327 | Renews are at least one second apart, whatever the server reports. |
| Renewal.Covered | src/dflockd_client/_sync.py:613-621 | If every cycle is punctual, every moment of the run lies inside a reported lease. |
| Attempts.AttemptMeans | src/dflockd_client/_sync.py:431-469 | Every outcome of acquire and enqueue, both ways: owner if and only if connected and granted, with exactly the token and lease granted and the lease in range; in line if and only if an enqueue was answered "queued"; False if and only if an acquire was answered "timeout"; everything else raises with nothing held. |
| Attempts.WaitMeans | src/dflockd_client/_sync.py:471-495 | Every outcome of wait, both ways: a held instance is left as it is, one in line holds exactly what is granted to it with a lease in range, returns False if and only if it was answered "timeout", and otherwise raises. |
| Attempts.CallsMean | src/dflockd_client/_sync.py:499-647 | Every outcome of release and of a renew tick, both ways: released if and only if held, open and confirmed; a report if and only if the renew was answered with seconds, which are in range and leave the hold as it is; any other uncancelled tick ends the hold. |
| Attempts.ReportStored | src/dflockd_client/_sync.py:660-662 | A positive report becomes the lease of what is held; nothing else changes. |
| Attempts.LinkMeans | src/dflockd_client/_sync.py:73-84 | What every outcome of a command leaves on its wire, event by event, and exactly when the transport stays open. |
| Attempts.AttemptWire | src/dflockd_client/_sync.py:431-469 | The wire of an attempt, event by event: auth and its confirmation if a token is configured, then the command and its reply. |
| Attempts.LoopKeepsToken | src/dflockd_client/_sync.py:613-662 | The renew loop ends with the same token and the last positive lease reported, in range, or with nothing. |
| Attempts.LoopTurns | src/dflockd_client/_sync.py:613-638 | Each turn of the loop is what its outcome says, all but the last go on, and the loop ends exactly at a turn that does not. |
| Attempts.LoopExchanges | src/dflockd_client/_sync.py:613-638 | After n turns that reported the wire carries n exchanges more, a renew of the token each, answered with its report. |
| Attempts.AttemptPhase | src/dflockd_client/_sync.py:431-469 | After a successful attempt the wire stands at holding the granted token, or in the queue. |
| Attempts.ResultsAreLifeSteps | src/dflockd_client/_sync.py:431-509 | What the calls do is what the abstract machine of the interleaved clients allows. |
| Connection.SyncConn.Command | src/dflockd_client/_sync.py:73-84 | The wire and the transport after a command, for every outcome: any failure once the frame is encoded closes the transport. |
| Connection.AsyncConn.Command | src/dflockd_client/_async.py:58-72 | The same; a failure closes the transport only once the write is committed. |
| SyncClient.SyncLock.StartRenew | src/dflockd_client/_sync.py:595-603 | A new worker with the current stop event. |
| SyncClient.SyncLock.StopRenew | src/dflockd_client/_sync.py:605-611 | The event is raised exactly if there was a thread, and the thread is forgotten. |
| SyncClient.SyncLock.CloseUnlocked | src/dflockd_client/_sync.py:526-560 | Closed with nothing held, the old connection closed without a further frame, the stop event raised; a second close does nothing. |
| SyncClient.SyncLock.ResetForNewAttempt | src/dflockd_client/_sync.py:562-567 | Nothing held, not closed, a fresh unset event, the old event raised and the old connection closed. |
| SyncClient.SyncLock.OpenAndAuthenticate | src/dflockd_client/_sync.py:571-579 | A fresh connection with at most the auth exchange on it, if and only if dialling and auth succeed; otherwise no connection is kept. |
| SyncClient.SyncLock.InvokeAcquire | src/dflockd_client/_sync.py:436-446 | The result of the acquire command for every outcome of its I/O, with the fields and the wire it leaves. |
| SyncClient.SyncLock.InvokeEnqueue | src/dflockd_client/_sync.py:455-469 | The same for enqueue. |
| SyncClient.SyncLock.InvokeWait | src/dflockd_client/_sync.py:479-490 | The same for wait. |
| SyncClient.SyncLock.Acquire | src/dflockd_client/_sync.py:431-434 | From any valid state: true if and only if connected and granted, with the token and lease granted and a worker started; False if and only if answered "timeout"; otherwise it raises. The new connection carries exactly the attempt, the old one nothing more, and the old event is raised. |
| SyncClient.SyncLock.Enqueue | src/dflockd_client/_sync.py:450-453 | The same for enqueue: "acquired" if and only if granted, "queued" if and only if answered so. |
| SyncClient.SyncLock.Wait | src/dflockd_client/_sync.py:473-477 | A held instance returns true unchanged; otherwise true if and only if open and granted, with exactly what was granted, False if and only if timed out, always on the same connection with one `w` exchange at most. |
| SyncClient.SyncLock.Release | src/dflockd_client/_sync.py:499-504 | Nothing is held afterwards whatever the I/O does; a held instance puts exactly the release of its token on the wire; true means that this frame and its confirmation are the last two events. |
| SyncClient.SyncLock.Close | src/dflockd_client/_sync.py:414-416 | Nothing is held afterwards and no frame was sent. |
| SyncClient.SyncLock.SendReleaseQuietly | src/dflockd_client/_sync.py:506-522 | A release frame goes out only with a connection and a token, carries that token, and counts as released only if confirmed. |
| SyncClient.SyncLock.HandleRenewFailure | src/dflockd_client/_sync.py:640-647 | The hold is given up and the connection closed if it is still the instance's; otherwise nothing changes. |
| SyncClient.SyncLock.RenewTick | src/dflockd_client/_sync.py:623-647 | A tick does nothing once its event is raised or the instance is closed; otherwise it puts the renew of the held token on the wire, reports seconds only if they are its answer there, and gives the hold up if there are none. |
| SyncClient.SyncLock.UpdateLease | src/dflockd_client/_sync.py:660-662 | A held, open instance takes a positive report over as its lease; nothing else changes. |
| SyncClient.SyncLock.RenewLoop | src/dflockd_client/_sync.py:613-621 | The loop's ticks, final held state, wire and slept intervals are those of the loop function, for every sequence of outcomes. |
| AsyncClient.AsyncLock.CancelRenew | src/dflockd_client/_async.py:541-546 | The task is forgotten and cancelled; a cancellation of the caller is passed on if and only if it had to wait. |
| AsyncClient.AsyncLock.CloseUnlocked | src/dflockd_client/_async.py:483-503 | Closed with nothing held and the old connection closed, wherever the close is cancelled; it raises if and only if it is cancelled in a wait that it makes. |
| AsyncClient.AsyncLock.ResetForNewAttempt | src/dflockd_client/_async.py:505-508 | Nothing held unless cancelled in the first wait, which keeps token, lease and connection and loses the renew task; it raises if and only if it is cancelled in a wait that it makes. |
| AsyncClient.AsyncLock.OpenAndAuthenticate | src/dflockd_client/_async.py:512-520 | A fresh connection with at most the auth exchange on it, if and only if dialling and auth succeed; after a failure or a cancellation no connection is kept, and which of the two is raised is exact. |
| AsyncClient.AsyncLock.InvokeAcquire | src/dflockd_client/_async.py:390-400 | The result of the acquire command for every outcome of its I/O and every cancellation of it and of its close, with the fields and the wire it leaves. |
| AsyncClient.AsyncLock.InvokeEnqueue | src/dflockd_client/_async.py:409-423 | The same for enqueue. |
| AsyncClient.AsyncLock.InvokeWait | src/dflockd_client/_async.py:433-444 | The same for wait. |
| AsyncClient.AsyncLock.Acquire | src/dflockd_client/_async.py:385-400 | Uncancelled: true if and only if connected and granted, with the token and lease granted and a live task; False if and only if answered "timeout"; otherwise it raises. CancelledError if and only if a wait on its way is cancelled, which leaves nothing held unless it is the first wait of the reset. |
| AsyncClient.AsyncLock.Enqueue | src/dflockd_client/_async.py:404-423 | The same for enqueue: "acquired" if and only if granted, "queued" if and only if answered so. |
| AsyncClient.AsyncLock.Wait | src/dflockd_client/_async.py:427-449 | As the synchronous wait, with the same wire; CancelledError if and only if the command or the wait of the close after it is cancelled, and then nothing is held. |
| AsyncClient.AsyncLock.Release | src/dflockd_client/_async.py:453-479 | For every outcome and every cancellation: closed, nothing held, the old transport closed, the live task cancelled. A held token's release is put on the wire unless the call was cancelled at the lock or in the wait for a live task; true means that this frame and its confirmation are the last two events; CancelledError if and only if a wait that is made is cancelled. |
| AsyncClient.AsyncLock.Aclose | src/dflockd_client/_async.py:368-370 | For every cancellation: closed, nothing held, no frame sent; CancelledError if and only if a wait that is made is cancelled. |
| AsyncClient.AsyncLock.HandleRenewFailure | src/dflockd_client/_async.py:587-594 | The hold is given up and the connection closed if the instance is open and the connection still its own; otherwise nothing changes. |
| AsyncClient.AsyncLock.RenewTick | src/dflockd_client/_async.py:571-594 | As the synchronous tick, wire included; a cancelled tick changes no field. |
| AsyncClient.AsyncLock.RenewLoopBody | src/dflockd_client/_async.py:562-569 | The same loop function, wire and intervals as the synchronous loop. |

## Left out

- Sockets, TLS, `makefile`, asyncio streams and the event loop: only write, read, close and their failures
  remain; asyncio's buffering of writes after a close is not modelled.
- The server's own queueing, mutual exclusion, fairness and token minting; a server that sends lines nobody
  asked for, or answers out of order.
- Sharding and `zlib.crc32`: the dialled server is arbitrary.
- `stats` responses and their JSON; the `stats` request is modelled.
- `token_for_log`, logging, `__del__`, the context manager methods, exception texts.
- Python's run-time type checks (`TypeError`, bool versus int, NaN and infinite timeouts), `validate_connect_timeout_s`,
  the servers and ratio checks of the constructors.
- Lone surrogates in strings, and Unicode digits accepted by `int()`.
- A thread that fails to start, `KeyboardInterrupt` and other `BaseException`s inside a worker, a release or a teardown
  of the synchronous client.
- Waiting for the state lock, and a cancellation there, which has no effect; calls from within a renew worker itself.
- The cancellation of renew tasks by anybody but the client (an event loop shutting down).
- SyncLease.StaleIsolation: holds in runs without slips only, because the code breaks it in the others; see
  SyncSlip.SlipIsExact for the exact boundary.
- SyncTheorems.EverySession: holds in runs without token slips only, because the code breaks it in the others, and
  so do the other theorems of SyncTheorems; see SyncSlipKinds.TokenSlipIsExact.
- SyncLease.HeldLease: holds in runs without token and lease slips only; see SyncSlipKinds.LeaseLossIsExact.
- SyncTold.LeaseIsTold: holds in runs without a slip of any kind only, and so do `GrantStored` and `TickGivesHoldUp`,
  because an old worker may write the token or the lease after a slip; see SyncSlip.SlipIsExact.
- SyncLease.ClosedLease: holds in runs without token and update slips only; see SyncSlipKinds.LeftLeaseIsExact.
- SyncClient.SyncLock.StopRenew: one call at a time, so its join always succeeds; a join that gives up is part of SyncMachine.
- Transport.ReplyPairing: a peer that answers in order is assumed, as the protocol has no request numbers.
- Renewal.LeaseContinuity: float rounding is not modelled; the reported seconds are taken as the exact end of the lease.
