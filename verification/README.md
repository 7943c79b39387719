# Freeze watchdog for Asterisk — a Dafny model

This project models the decision logic of `res_freeze_check`, an Asterisk module that detects a
frozen (deadlocked) Asterisk and reacts. Three versions of the module are covered:

- **Main version** (`res_freeze_check.c`). A background thread wakes up once per interval. It
  probes the global channels container lock with a timed lock. When queue checks are on, it then
  probes the queue application's container lock and every queue's lock. The first probe that times
  out makes the thread log and `abort()` the process. Operator CLI commands toggle a
  dangerous-commands flag. While the flag is on, they lock and unlock those locks directly.
- **Xivo version** (`xivo-res-freeze-check/res_freeze_check.c`). There is no thread. An on-demand
  check (`ast_channels_check_lock` with a 10 s timeout) is reported through the `CheckFreeze`
  manager action and `freeze check`. The version also has the gated `freeze channel` command.
- **Legacy version** (`res_freeze_check/res_freeze_check.c`). It has only the `CheckFreeze` action,
  which asks the host to retry the channel lock a computed number of times, and `freeze
  enable|disable`.

Nothing here blocks or runs. Each primitive's answer is an input value:

- the realtime clock reading (or its failure);
- the `pthread_mutex_timedlock` return code;
- the `poll` result and the eventfd's `revents`;
- the queue application lookup and symbol resolution;
- the `eventfd()` and thread-creation results;
- the host's lock-check functions.

Locks are an abstract set of held `LockId`s. Aborting the process, stopping the loop and CLI or
manager replies are returned as values.

Modules:

- `Basics`: `Option` and C-locale case folding (`strcasecmp`).
- `Locks`: lock identities and the held set.
- `Probe`: `check_mutex`.
- `Checker`: `checker_init`, the probe order, `checker_check_mutexes` and the queue decision of
  `load_module`.
- `Watchdog`: the `checker_run` loop.
- `Gate`: the enable/disable parsing, shared by all three versions, and the channel lock command,
  shared by the main and xivo versions (the legacy version has no lock commands).
- `FreezeCli`: the main version's CLI handlers.
- `Ami`: the `CheckFreeze` reply text and a reader for it.
- `XivoFreezeCheck` and `LegacyFreezeCheck`: the other two versions.
- `Scenarios`: end-to-end consequences.

Two behaviours of the code worth knowing:

- A refused dangerous command is only reported on the CLI and is not logged
  (res_freeze_check.c:312-315). Only successful lock/unlock commands log a warning.
- The on-demand check of the xivo version delegates to the host's `ast_channels_check_lock`, which
  covers the channel container lock only. The legacy version passes a retry count and a per-try
  wait instead of a timeout.

## Model

| member | source | states |
|---|---|---|
| `Basics.StrCaseCmp` | res_freeze_check.c:284-288 | the word comparison the CLI uses returns 0 exactly when the two C strings are equal ignoring ASCII letter case |
| `Basics.EqualsIgnoreCaseIsLowerEquality` | res_freeze_check.c:284-288 | comparing words ignoring case is the same as comparing their lower-case foldings |
| `Basics.EqualsIgnoreCaseIsEquivalence` | res_freeze_check.c:284-288 | case-insensitive word equality is reflexive, symmetric and transitive |
| `Probe.CheckMutex` | res_freeze_check.c:120-153 | the result is 0 exactly when the clock worked and the lock was obtained, 1 (`CHECK_MUTEX_TIMEDOUT`) exactly when the clock worked and the wait hit `ETIMEDOUT`, and -1 otherwise. A failed clock means no attempt and no deadline. The deadline is now plus `timeout` whole seconds. The probe never leaves a lock held, and against a real mutex it leaves the lock state unchanged |
| `Probe.IdealProbe` | res_freeze_check.c:135-148 | against an ideal mutex, a free lock is reported obtained and stays free, and a lock held elsewhere is reported timed out. Repeating the probe gives the same report |
| `Checker.CheckerInit` | res_freeze_check.c:155-167 | initialisation fails exactly when `eventfd()` returned -1. Otherwise the interval is 60 s and the timeout 30 s, so the timeout is shorter than the interval |
| `Checker.ProbeOrder` | res_freeze_check.c:181-203 | a pass probes the channels container first. Only when queue checks are on does it then probe the queues container and then every queue of the snapshot, in iteration order |
| `Checker.PassFrom` | res_freeze_check.c:181-206 | the pass fails exactly when some remaining probe times out. It probes the order as a prefix that ends at the first timeout, or covers all of it when nothing times out. Errors do not stop it. It leaves no new lock held |
| `Checker.CheckMutexes` | res_freeze_check.c:174-207 | a pass returns -1 exactly when some lock in the fixed order timed out and 0 otherwise. It stops after the first timeout. With queue checks off it probes only the channels container. Every probe waits until its own clock reading plus the checker's `timeout` (lines 181, 190, 198) |
| `Checker.PassDeadlines` | res_freeze_check.c:181-206 | every probe of a pass over any order is given the same timeout: its deadline is its clock reading plus that many seconds, or absent when the clock failed |
| `Checker.ShapeUnique` | res_freeze_check.c:181-206 | the pass rules leave no freedom: two outcomes that both probe a prefix of the same order ending at the first timeout (or all of it with no timeout) have the same result and the same probes |
| `Checker.PassFromOutline` | res_freeze_check.c:181-206 | a pass over any probe order probes a prefix of it that ends at the first timeout, or all of it and returns 0 when nothing timed out |
| `Checker.PassOutline` | res_freeze_check.c:174-207 | the checker's pass has that shape over its fixed probe order |
| `Checker.ShapeDeterminesPass` | res_freeze_check.c:181-206 | any result and probe list that follow the pass rules equal those of `CheckMutexes` |
| `Checker.CheckMutexesLoop` | res_freeze_check.c:174-207 | the pass written as the module iterates it (channels, queue container, then a loop over queues with early return) gives the same result and probes the same locks in the same order |
| `Checker.ProbeQueues` | res_freeze_check.c:196-203 | after two container probes without a timeout, the queue loop probes the queue locks in snapshot order and stops at the first timeout, so the whole pass has the required shape |
| `Checker.OnlyTimeoutsMatter` | res_freeze_check.c:181-203 | two environments that agree on which probes time out give the same pass result over the same locks, whatever their error answers. Errors are never fatal |
| `Checker.IdealPass` | res_freeze_check.c:181-206 | against ideal mutexes a pass fails exactly when some lock it would probe is held. It then stops at the first held lock and changes no lock |
| `Checker.LoadModule` | res_freeze_check.c:396-429 | queue checks are on exactly when the Queue application exists and both accessors resolved. Turning them off logs exactly one warning. The load succeeds exactly when `eventfd()` and the thread creation both succeed. The started checker keeps the eventfd and has the 60 s interval and 30 s timeout |
| `Watchdog.PollTimeoutMs` | res_freeze_check.c:213 | the poll timeout is the interval converted from whole seconds to milliseconds |
| `Watchdog.DefaultSchedule` | res_freeze_check.c:163-164 | with the defaults the loop polls with a 60000 ms timeout, twice the probe timeout |
| `Watchdog.LoopStep` | res_freeze_check.c:219-236 | a poll error or any event on the eventfd (a stop request, or an error or hang-up condition) ends the loop before any pass starts. Otherwise the pass runs, and a nonzero result aborts |
| `Watchdog.OnlyTimeoutAborts` | res_freeze_check.c:230-236 | an iteration of the checker's loop aborts exactly when its interval elapsed and some probed lock timed out |
| `Watchdog.Run` | res_freeze_check.c:209-241 | over a sequence of iterations the loop runs at most one pass per iteration. A stop leaves at the iteration right after the last pass, which did not elapse, for that iteration's reason, after a passing pass. An abort follows a failing pass. Running out of iterations means one passing pass per iteration |
| `Watchdog.RunPasses` | res_freeze_check.c:219-236 | pass i of a run belongs to iteration i, whose interval elapsed, and every pass before the last one found nothing |
| `Watchdog.FirstNonQuietTickDecides` | res_freeze_check.c:219-239 | the first iteration that is not an elapsed, passing one decides the loop. It aborts after k+1 passes if that iteration's pass failed, and otherwise stops for that iteration's reason after k passes |
| `Watchdog.AllQuietKeepsRunning` | res_freeze_check.c:219-237 | while every iteration elapses with a passing pass, the loop runs one pass per iteration and neither stops nor aborts |
| `Watchdog.WakeBeforePass` | res_freeze_check.c:226-228 | an event on the eventfd at iteration k, normally a stop request, ends the loop with exactly the k earlier passes: no new pass starts |
| `Watchdog.AbortIffFailingPass` | res_freeze_check.c:230-236 | the loop aborts exactly when some iteration's pass fails while every earlier iteration elapsed and passed |
| `Watchdog.RunLoop` | res_freeze_check.c:209-241 | the `for (;;)` loop over iterations ends with the same verdict and number of passes as `Run` |
| `Gate.Toggle` | res_freeze_check/res_freeze_check.c:47-59 | "enable" or "disable" in any letter case sets the flag on or off. Any other word gives SHOWUSAGE and keeps the flag |
| `Gate.ToggleIsIdempotent` | res_freeze_check.c:284-294 | the new flag does not depend on the old one, so repeating `freeze enable` or `freeze disable` changes nothing more |
| `Gate.ToggleIgnoresCase` | res_freeze_check.c:284-291 | "ENABLE", "Enable", "DISABLE" and "Disable" act like the lower-case words, while "enabled" and the empty word give SHOWUSAGE |
| `Gate.ChannelCommand` | res_freeze_check.c:312-327 | while the flag is off, every word is refused with CLI_FAILURE and nothing changes. Otherwise "lock" or "unlock" in any case sets the channels lock held or free and logs one warning, and any other word gives SHOWUSAGE |
| `FreezeCli.CliEnable` | res_freeze_check.c:269-295 | the flag follows "enable"/"disable" in any case, any other word changes nothing, and no lock is touched |
| `FreezeCli.CliChannel` | res_freeze_check.c:297-330 | while the flag is off, the command is refused and changes no state. Otherwise lock/unlock add or remove only the channels container lock, and the flag never changes |
| `FreezeCli.CliQueue` | res_freeze_check.c:332-388 | without queue checks the command is refused with the queue notice, even when the flag is off. Next comes the flag refusal. `global_lock`/`global_unlock` change only the queues container lock, `lock`/`unlock` hold or free every queue of the snapshot, and anything else gives SHOWUSAGE. A command that does not succeed changes nothing, and the channels lock is never touched |
| `FreezeCli.QueueLockThenUnlock` | res_freeze_check.c:365-382 | locking then unlocking the queues of a snapshot frees every one of them and leaves the container and channel locks as they were. Unlocking then locking holds them all |
| `FreezeCli.RefusedWhileDisabled` | res_freeze_check.c:312-315 | while the flag is off, every `freeze channel` and `freeze queue` run is refused and no command changes the state, up to the first successful `freeze enable` |
| `FreezeCli.LockedOutAtLoad` | res_freeze_check.c:114 | the module loads with the flag off, so from load every lock command is refused and the state stays as loaded until a successful `freeze enable` |
| `FreezeCli.CliQueueHandlerAsWritten` | res_freeze_check.c:339-352 | as written, with queue checks off, every handler call, registration included, is answered with CLI_FAILURE. With queue checks on it behaves as the corrected handler |
| `FreezeCli.AsWrittenRegistrationFailsWithoutQueues` | res_freeze_check.c:339-349 | as written, the registration call with queue checks off fills in no command text and returns CLI_FAILURE |
| `FreezeCli.CliQueueHandler` | res_freeze_check.c:345-387 | the corrected handler registers `freeze queue {global_lock\|lock\|global_unlock\|unlock}` whatever the queue availability, offers no completion, and runs the command as `CliQueue` |
| `FreezeCli.CorrectionKeepsRuns` | res_freeze_check.c:354-387 | every run of the queue command behaves the same before and after the correction |
| `Ami.Render` | xivo-res-freeze-check/res_freeze_check.c:25-33 | the reply starts with the Success line when the check passed and the Fail line otherwise. It has more than that line exactly when the request carried an ActionID |
| `Ami.ParseRender` | xivo-res-freeze-check/res_freeze_check.c:23-33 | reading the reply back gives the check outcome and the ActionID verbatim, whatever its characters |
| `Ami.EmptyIdLineRejected` | xivo-res-freeze-check/res_freeze_check.c:30-32 | an "ActionID: " line with an empty ID is never written, so the reader rejects it instead of taking it for a reply without an ID |
| `Ami.RenderIsInjective` | res_freeze_check/res_freeze_check.c:18-29 | different outcomes or identifiers always give different reply texts |
| `XivoFreezeCheck.CheckLocks` | xivo-res-freeze-check/res_freeze_check.c:11-19 | the check returns -1 exactly when the host's channel lock check with a 10 s timeout is nonzero, and 0 otherwise |
| `XivoFreezeCheck.CheckFreezeAction` | xivo-res-freeze-check/res_freeze_check.c:21-36 | the action always returns AMI_SUCCESS. Its reply reads back as "Response: Fail" exactly when the check fails. An ActionID line follows exactly when the request carried a non-empty ActionID, and it echoes that ID |
| `XivoFreezeCheck.CliCheck` | xivo-res-freeze-check/res_freeze_check.c:66-84 | `freeze check` always returns CLI_SUCCESS. It prints DEADLOCKED exactly when the check fails and "fine" exactly when it passes |
| `XivoFreezeCheck.CheckReportsAgree` | xivo-res-freeze-check/res_freeze_check.c:66-84 | `freeze check` prints DEADLOCKED exactly when the `CheckFreeze` reply to the same host answer reads back as a failure, whatever the ActionID |
| `XivoFreezeCheck.CliEnable` | xivo-res-freeze-check/res_freeze_check.c:38-64 | the flag follows "enable"/"disable" in any case, any other word changes nothing, and the channel lock is untouched |
| `XivoFreezeCheck.CliChannel` | xivo-res-freeze-check/res_freeze_check.c:86-119 | the gate is checked before the word, so any word is refused while the flag is off. Otherwise lock/unlock set the channel lock held or free, and other words give SHOWUSAGE without change |
| `XivoFreezeCheck.LockedOutAtLoad` | xivo-res-freeze-check/res_freeze_check.c:9 | the module loads with the flag off, so from load every `freeze channel` run is refused and the state stays as loaded until a successful `freeze enable` |
| `LegacyFreezeCheck.RetryCount` | res_freeze_check/res_freeze_check.c:11-13 | in 32-bit unsigned arithmetic the count is 30000, and 30000 tries of 1000 µs cover exactly 30 s without wrap-around |
| `LegacyFreezeCheck.CheckFreezeAction` | res_freeze_check/res_freeze_check.c:9-32 | the action always returns AMI_SUCCESS. Its reply reads back as Success exactly when the host's check with 30000 tries of 1000 µs returns 0. An ActionID line follows exactly when the request carried a non-empty ActionID, and it echoes that ID |
| `Scenarios.GateRefusesThenAllows` | res_freeze_check.c:282-329 | with the flag off, a channel lock is refused and changes nothing. After `freeze enable` the same command holds the channels lock and logs one warning naming it |
| `Scenarios.ChannelLockedByOperatorAborts` | res_freeze_check.c:181-185 | after an operator locks the channels container, the next elapsed iteration against ideal mutexes aborts after probing that one lock only |
| `Scenarios.NoTimeoutNeverAborts` | res_freeze_check.c:219-237 | if no probe ever times out and no event shows on the eventfd, the checker's loop runs one pass per iteration and never aborts, however many probes fail with errors |
| `Scenarios.NoQueueChecksDegrades` | res_freeze_check.c:187-204 | when loading turned queue checks off, every pass probes only the channels container lock, and every `freeze queue` run is refused with the queue notice and no state change |

## Left out

- Threads and blocking: `pthread_create`, `pthread_join`, the blocking of `poll` and of the timed
  lock, `sleep(2)` and `abort()`. These are input answers or verdicts. Their timing and
  cross-thread behaviour are not modelled.
- `checker_stop`, `checker_destroy` and `unload_module`: the eventfd write, the join and the
  unregistration are shutdown plumbing.
- Host functions (`ast_channels_check_lock`, `ast_channel_check_lock`, `astman_*`, `ast_cli`, the
  ao2 containers and iterators, `pbx_findapp`, `dlsym`, CLI and manager registration). Their answers
  are inputs.
- The private structure layouts copied from the host. They carry no behaviour.
- The ao2 iterators are never destroyed and the queue references never released. The model makes no
  claim about leaks.
- Queues added or removed during a pass. A pass and a queue command see a fixed snapshot sequence.
- Log and debug messages. Only the CLI texts, the warnings of the lock commands and load, and the
  manager reply lines are modelled.
- The registration and completion branches of `cli_enable` and `cli_channel` in every version, and
  of `cli_check`. They only fill in the command and usage strings. `cli_queue`'s are modelled
  because their order matters.
- The command word: `a->argv[e->args - 1]` is taken as an input word.
- `ETIMEDOUT` is taken as its Linux value, 110.
- Probe.CheckMutex: equality of the lock state is stated only for answers a real mutex can give
  (it grants only a free lock). For an answer that grants a held lock, only "no new lock held" is
  stated.
- FreezeCli.CliChannel, FreezeCli.CliQueue, Gate.ChannelCommand, XivoFreezeCheck.CliChannel: the
  model records each lock only as held or free. Asterisk mutexes are recursive, so a repeated lock
  from the owning thread raises a count, and a lock taken by another thread blocks the CLI thread.
  A recursive mutex can only be released by the thread that owns it, so an unlock from another CLI
  thread leaves the lock held. Unlocking a free mutex is undefined. None of this is modelled.
- Watchdog.PollTimeoutMs: the C `int` product `interval * 1000` would overflow only for intervals
  above 2147483 s. The interval is always 60, so no wrap-around is modelled.
- Basics.StrCaseCmp: it requires NUL-free strings, as C strings are. The CLI functions use
  `EqualsIgnoreCase` on words that come from NUL-terminated `argv` strings.

## Findings

| source | as written | input that shows it | evidently intended | confidence | as-written member | corrected member |
|---|---|---|---|---|---|---|
| res_freeze_check.c:339-352 | `cli_queue` tests `queue_checks_enabled` before its `CLI_INIT`/`CLI_GENERATE` switch. With queue checks off, the registration call prints a refusal and returns `CLI_FAILURE` without setting the command or usage text | the Queue application is loaded without `ast_queues_get_mutex` (so queue checks are off), and `ast_cli_register_multiple` then calls `cli_queue` with `CLI_INIT` | registration always fills in `freeze queue {global_lock\|lock\|global_unlock\|unlock}`, and only runs of the command are refused | medium; not executed (what the host does with an entry that has no command text is host code) | `FreezeCli.AsWrittenRegistrationFailsWithoutQueues` | `FreezeCli.CliQueueHandler` |
