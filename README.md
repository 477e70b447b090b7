# romio: background reactor shutdown and the datagram readiness pattern

This project models two parts of romio's asynchronous I/O reactor in Dafny and
proves properties of them.

**Background reactor shutdown** (`src/reactor/background.rs`). A reactor can run
on a thread of its own. The handle and the thread share one word:
0 = Running, 1 = SHUTDOWN_IDLE, 2 = SHUTDOWN_NOW, 3 = SHUTDOWN. They also share
one completion waker slot (an `AtomicWaker`).
- Releasing the handle runs `Inner::shutdown_now`. Its compare-and-swap loop
  raises the word to SHUTDOWN_NOW and wakes the reactor thread.
- The thread's `run` loop breaks on SHUTDOWN_NOW, or on SHUTDOWN_IDLE when the
  reactor is idle. It then drops the reactor, stores SHUTDOWN and wakes the task
  that polls the `Shutdown` future.

The model has two layers:
- Pure snapshots and steps. An `Action` system describes arbitrary interleavings
  of the threads, and lemmas prove properties of every interleaving: the word
  never decreases, SHUTDOWN is terminal, the store happens at most once, the
  reactor thread is interrupted at most once, no check made after a request
  turns, and a waiter whose waker is registered before the final wake, and not
  replaced by another waker, is woken (`block_on` registers the same waker on
  every poll).
- Classes. `Shared`, `Shutdown` and `Background` hold the same state in fields.
  Only the word and the waker slot are real fields of `Shared`; the counters, the
  thread's phase and the woken wakers are ghost observations. Each single-step
  method of `Shared` is proved to perform exactly one of those steps. `Shared.Run`
  performs the whole interleaving `RunActions` describes, and `Background.Drop`
  performs the request step. `Background.New` and `Background.Forget` create or
  empty a handle without taking a step.

**Unix datagram consumer pattern** (`src/uds/datagram.rs`). Each of
`poll_recv_from` and `poll_send_to` works in four steps:
1. Ask the readiness bridge (`PollEvented`) whether its direction is ready.
2. If it is, make the non-blocking system call.
3. If that call would block, clear that direction's readiness and suspend.
4. Otherwise, hand back the call's result unchanged.

The bridge's source is not part of this model. It is modelled by its contract:
one sticky flag and one waker slot per direction. The system call's result is an
input of each operation, and so is the failure of each bridge call. The function
`ConsumerRound` gives one operation as a value: the bridge state afterwards, the
calls made and the answer. The methods are proved equal to it, and the lemmas
say what it means.

Interleavings are sequential steps, not threads. The CAS loop's interference
shows up as its first load returning any earlier value of the word (`loaded`).
While the run loop blocks in a turn, another thread's request can land
(`TurnEnv`). A run-loop check (the load at line 158 of
`src/reactor/background.rs`) and the turn it leads to (line 170) are one step
(`Iterate`). A request landing between those two lines is therefore ordered
after that turn. `reactor.is_idle()` and the bridge's failures are inputs.
`reactor.turn` is a counter and `handle.wakeup()` is another.

Notes on the code:
- No operation in `background.rs` stores SHUTDOWN_IDLE. The run loop still reacts
  to it (line 165), and the lemmas start from any state that satisfies the
  invariant, so a word set to SHUTDOWN_IDLE from elsewhere is covered. No
  request operation for it is modelled.
- The loop compares the word with SHUTDOWN_NOW by equality (line 160). The model
  keeps the equality. The invariant shows the word is never SHUTDOWN while the
  loop runs.
- `AtomicWaker::wake` takes the registered waker out of its slot, so the slot is
  empty after the final wake.

## Model

| member | source | states |
|---|---|---|
| BackgroundReactor.ConstantsOrdered | src/reactor/background.rs:51-57 | Running (0) < SHUTDOWN_IDLE < SHUTDOWN_NOW < SHUTDOWN |
| BackgroundReactor.Initial | src/reactor/background.rs:69-72 | the word starts at Running with the reactor looping, and the starting state satisfies the invariant |
| BackgroundReactor.ShutdownNowEffect | src/reactor/background.rs:130-150 | the word ends at max(state, SHUTDOWN_NOW); exactly one wakeup iff it was below SHUTDOWN_NOW; otherwise nothing changes; a second request is a no-op |
| BackgroundReactor.StepKeepsInv | src/reactor/background.rs:110-179 | every thread's step keeps the invariant and never lowers the word |
| BackgroundReactor.ExecutionKeepsInv | src/reactor/background.rs:110-179 | any interleaving keeps the invariant: the word is monotonic, SHUTDOWN is terminal, SHUTDOWN only after the reactor is dropped, the completion waker woken only after SHUTDOWN |
| BackgroundReactor.WakeupAtMostOnce | src/reactor/background.rs:131-146 | from the initial state, any number of interleaved requests wake the reactor thread at most once, and never while the word is below SHUTDOWN_NOW |
| BackgroundReactor.PollAfterShutdownIsReady | src/reactor/background.rs:110-127 | once the word is SHUTDOWN, every later poll, after any interleaving, answers `Ready(Ok(()))` |
| BackgroundReactor.NoTurnAfterRequest | src/reactor/background.rs:157-171 | once the word is at least SHUTDOWN_NOW, no later check of the loop turns; only the turn whose check came before the request can still run |
| BackgroundReactor.StoreAtMostOnce | src/reactor/background.rs:173-179 | an interleaving stores SHUTDOWN at most once, and not at all once it has been stored |
| BackgroundReactor.ExitPath | src/reactor/background.rs:173-179 | when the loop breaks, drop, store and wake run in that order and end in the finished state |
| BackgroundReactor.IterationStep | src/reactor/background.rs:157-171 | an iteration that does not break turns once, applies a request that lands during the turn, and keeps looping |
| BackgroundReactor.RunOutcome | src/reactor/background.rs:155-182 | a run either completes the shutdown (word SHUTDOWN, slot emptied) or keeps looping with one turn per iteration; a request during the j-th turn allows at most j + 1 turns and makes the next check break |
| BackgroundReactor.DropCompletes | src/reactor/background.rs:92-101 | from any looping state, in `Drop`'s order, the request, the first poll's register of `w`, one check, the store and the wake reach SHUTDOWN, wake exactly `w` and make the future Ready |
| BackgroundReactor.FinishedStays | src/reactor/background.rs:155-179 | after the final wake, no interleaving changes the thread's phase or the woken wakers again |
| BackgroundReactor.NoMissedWakeup | src/reactor/background.rs:101-118 | no missed wakeup: once `w` is registered before the final wake, every interleaving whose later registers (the repeated polls of `block_on`) all register `w` again and that completes the shutdown has woken exactly `w`, so the `block_on` in `Drop` is woken |
| BackgroundReactor.PendingPollIsWoken | src/reactor/background.rs:110-118 | a poll that answers Pending has registered its waker before the final wake, so if the shutdown completes while the waiter keeps polling with that waker, it is woken |
| BackgroundReactor.Shared.constructor | src/reactor/background.rs:69-72 | the shared state is created at Running with an empty waker slot |
| BackgroundReactor.Shared.IsShutdown | src/reactor/background.rs:125-127 | true exactly when a poll would be Ready; when true, the reactor has been dropped |
| BackgroundReactor.Shared.ShutdownNow | src/reactor/background.rs:130-150 | the CAS retry loop from a stale first load: word = max(old, SHUTDOWN_NOW), one wakeup iff it moved the word, 0 to 2 compare-and-swaps as determined by the stale and current values |
| BackgroundReactor.Shared.Register | src/reactor/background.rs:111 | the completion slot holds the new waker, replacing any earlier one |
| BackgroundReactor.Shared.Turn | src/reactor/background.rs:170 | one more turn; nothing else changes |
| BackgroundReactor.Shared.DropReactor | src/reactor/background.rs:173 | the reactor is dropped while the thread is in its loop phase; `Run` calls it only once `ExitDecision` holds |
| BackgroundReactor.Shared.StoreShutdown | src/reactor/background.rs:176 | the word becomes SHUTDOWN, only after the reactor is dropped |
| BackgroundReactor.Shared.WakeWaiter | src/reactor/background.rs:179 | the registered waker is taken and woken, only after SHUTDOWN is stored |
| BackgroundReactor.Shared.Run | src/reactor/background.rs:155-182 | the run loop performs exactly the interleaving `RunActions` describes; it exits iff it breaks, and then the word is SHUTDOWN and the registered waker has been woken |
| BackgroundReactor.Shutdown.constructor | src/reactor/background.rs:100 | the future built by `Drop` holds the same shared state as the released handle |
| BackgroundReactor.Shutdown.PollFuture | src/reactor/background.rs:110-118 | always registers the caller's waker; `Ready(Ok(()))` iff the word is SHUTDOWN, otherwise Pending |
| BackgroundReactor.Background.constructor | src/reactor/background.rs:80-82 | a new handle holds the given shared state |
| BackgroundReactor.Background.New | src/reactor/background.rs:63-83 | a failed spawn returns its error; otherwise a handle whose fresh shared state is at Running |
| BackgroundReactor.Background.Drop | src/reactor/background.rs:92-102 | a forgotten handle does nothing; otherwise it requests an immediate shutdown and returns the `Shutdown` future to wait on |
| BackgroundReactor.Background.Forget | src/reactor/background.rs:86-88 | empties the handle; the drop that follows does nothing and the reactor thread is untouched |
| Readiness.PollReadyContract | src/uds/datagram.rs:133 | a bridge poll suspends iff the flag is unset and then holds the caller's waker; a ready poll changes nothing; the other direction is untouched |
| Readiness.ClearReadyContract | src/uds/datagram.rs:138 | a successful clear unsets the flag and registers the waker; a failed one changes nothing; the other direction is untouched |
| Readiness.PollEvented.constructor | src/uds/datagram.rs:60-63 | a freshly wrapped socket has neither direction ready and no waker |
| Readiness.PollEvented.PollReady | src/uds/datagram.rs:133 | the bridge's readiness poll changes state and answers as `AfterPollReady` and `ReadyAnswer` describe |
| Readiness.PollEvented.ClearReady | src/uds/datagram.rs:138 | the bridge's clear changes state and answers as `AfterClearReady` and `ClearAnswer` describe |
| Datagram.IsWouldBlock | src/uds/datagram.rs:218-223 | false for any `Ok`; for an `Err`, true iff its kind is `WouldBlock` |
| Datagram.NotReadySuspends | src/uds/datagram.rs:133 | not ready: Pending, only the readiness poll is called (no system call), and the waker is registered; a failing poll gives `Ready(Err)` with that error |
| Datagram.WouldBlockClears | src/uds/datagram.rs:135-139 | a would-block result clears that direction with the same waker and gives Pending; a failing clear's error is returned |
| Datagram.ResultPassesThrough | src/uds/datagram.rs:137-142 | any other result is returned exactly, and readiness is not cleared |
| Datagram.AttemptOnlyWhenReady | src/uds/datagram.rs:133-142 | the system call is made iff the poll answered `Ready(Ok)`, and the clear is called iff that call would block |
| Datagram.NeverReturnsWouldBlock | src/uds/datagram.rs:137-142 | a returned `WouldBlock` error is always a bridge call's failure, never the system call's |
| Datagram.OwnDirectionOnly | src/uds/datagram.rs:154-163 | every call an operation makes is on its own direction; the other direction's flag and waker are unchanged |
| Datagram.PendingRegistersWaker | src/uds/datagram.rs:133-139 | whenever an operation answers Pending, its direction is not ready and holds the caller's waker |
| Datagram.NoBusyPolling | src/uds/datagram.rs:133-139 | repeated polls of a direction that is not ready all suspend, never make the system call, and leave the latest waker registered |
| Datagram.UnixDatagram.constructor | src/uds/datagram.rs:60-63 | wraps a bridge with no calls made yet |
| Datagram.UnixDatagram.PollReadReady | src/uds/datagram.rs:82-84 | returns the bridge's read answer unchanged |
| Datagram.UnixDatagram.PollWriteReady | src/uds/datagram.rs:87-89 | returns the bridge's write answer unchanged |
| Datagram.UnixDatagram.PollRecvFrom | src/uds/datagram.rs:128-143 | the calls, the new bridge state and the answer are exactly one `ConsumerRound` on the read direction |
| Datagram.UnixDatagram.PollSendTo | src/uds/datagram.rs:148-164 | the calls, the new bridge state and the answer are exactly one `ConsumerRound` on the write direction |

## Left out

- A run-loop check and the turn it leads to are one atomic step (`Iterate`), so a
  request landing between lines 158 and 170 of `src/reactor/background.rs` is
  ordered after that turn. `NoTurnAfterRequest` speaks of checks made after the
  request: the one turn whose check came before it can still run.
- Real concurrency and memory ordering are not modelled: SeqCst atomics, `Arc`
  sharing and the spawned thread. Interleavings are sequences of atomic steps
  (`Action`), and the CAS loop's interference shows up as a stale first load.
- Anything that happens between two steps of the `run` loop other than a
  request landing during a turn is covered only by the `Action` lemmas: for
  example, a request arriving after the loop broke. `Shared.Run` does not cover it.
- `executor::block_on` in `Drop` is not modelled. `Drop` returns the `Shutdown`
  future, and `DropCompletes` shows the steps that make it Ready.
- `reactor.turn` failing is not modelled. A failure makes `.unwrap()` panic and
  the thread end without storing SHUTDOWN, so a release would wait forever.
  `turn` is a counter that always succeeds.
- `Reactor::turn`, `Reactor::is_idle`, `Handle::wakeup` and `PollEvented` are not
  part of this model. `is_idle` is an input, `turn` and `wakeup` are counters,
  and the bridge is its contract (`Readiness`).
- The bridge's readiness events from the reactor are not modelled: nothing in
  the model sets a flag or wakes a bridge waker.
- The mio readiness set returned by a ready poll is one token per direction, so
  hang-up and error bits are not modelled.
- The receive buffer, the destination path and the bytes moved by
  `recv_from`/`send_to` are not modelled. The call's result is an input.
- `bind`, `pair`, `unbound`, `local_addr`, `peer_addr`, `take_error`,
  `shutdown(how)`, `Debug` and `AsRawFd` are not modelled. They are thin wrappers
  over operating-system calls.
- `debug!` logging is not modelled.
- The integration tests in `tests/uds.rs` are not modelled. They run real
  sockets, threads and executors.
