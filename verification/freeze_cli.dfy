/** The CLI commands of the main module version: `freeze enable|disable`,
    `freeze channel lock|unlock` and `freeze queue
    global_lock|lock|global_unlock|unlock`, acting on the dangerous-commands
    flag and the abstract lock state. */
module FreezeCli {

  import opened Basics
  import opened Locks
  import opened Gate

  /** The dangerous-commands flag and which locks are held. */
  datatype FreezeState = FreezeState(dangerous: bool, held: Held)

  /** A command's CLI result, the state after it, the CLI text and the
      warnings logged. */
  datatype CliReply = CliReply(result: CliResult, state: FreezeState, out: string, warnings: seq<string>)

  const QueueRefusedNotice := "Queue lock CLI commands are disabled.\n"
  /** The CLI and log texts, named as in `Gate`. */
  const QueueContainerLocked := "The global queue container is now LOCKED\n"
  const QueueContainerUnlockedNotice := "The global queue container is now UNLOCKED.\n"
  const QueueContainerUnlockedWarning := "The global queue container is now UNLOCKED\n"
  const QueuesLocked := "All queues are now LOCKED\n"
  const QueuesUnlockedNotice := "All queues are now UNLOCKED.\n"
  const QueuesUnlockedWarning := "All queues are now UNLOCKED\n"

  /** `freeze enable|disable`. */
  function CliEnable(s: FreezeState, what: string): (r: CliReply)
    ensures EqualsIgnoreCase(what, "enable") ==> r.result == CliSuccess && r.state.dangerous
    ensures EqualsIgnoreCase(what, "disable") ==> r.result == CliSuccess && !r.state.dangerous
    ensures !EqualsIgnoreCase(what, "enable") && !EqualsIgnoreCase(what, "disable") ==>
              r.result == CliShowUsage && r.state == s
    // no lock is touched and nothing is logged
    ensures r.state.held == s.held && r.warnings == []
  {
    var t := Toggle(s.dangerous, what);
    CliReply(t.result, FreezeState(t.enabled, s.held), t.out, [])
  }

  /** `freeze channel lock|unlock`. */
  function CliChannel(s: FreezeState, what: string): (r: CliReply)
    // refused while the flag is off, whatever the word, and nothing changes
    ensures !s.dangerous ==> r == CliReply(CliFailure, s, RefusedNotice, [])
    ensures s.dangerous && EqualsIgnoreCase(what, "lock") ==>
              r.result == CliSuccess && r.state.held == s.held + {ChannelsContainer}
    ensures s.dangerous && EqualsIgnoreCase(what, "unlock") ==>
              r.result == CliSuccess && r.state.held == s.held - {ChannelsContainer}
    ensures r.result != CliSuccess ==> r.state == s
    // only the channels container lock can change, and the flag never does
    ensures r.state.dangerous == s.dangerous
    ensures r.state.held - {ChannelsContainer} == s.held - {ChannelsContainer}
  {
    var c := ChannelCommand(s.dangerous, ChannelsContainer in s.held, what);
    var held := if c.channelHeld then s.held + {ChannelsContainer} else s.held - {ChannelsContainer};
    CliReply(c.result, FreezeState(s.dangerous, held), c.out, c.warnings)
  }

  /** `freeze queue global_lock|lock|global_unlock|unlock`, given whether
      queue checks were enabled at load time and the queue snapshot the
      command iterates. */
  function CliQueue(s: FreezeState, queueChecks: bool, queues: seq<QueueId>, what: string): (r: CliReply)
    // the queue application's availability is checked before the gate
    ensures !queueChecks ==> r == CliReply(CliFailure, s, QueueRefusedNotice, [])
    ensures queueChecks && !s.dangerous ==> r == CliReply(CliFailure, s, RefusedNotice, [])
    // global_* touch only the container lock, lock/unlock every queue of the snapshot
    ensures queueChecks && s.dangerous && EqualsIgnoreCase(what, "global_lock") ==>
              r.result == CliSuccess && r.state.held == s.held + {QueuesContainer}
    ensures queueChecks && s.dangerous && EqualsIgnoreCase(what, "lock") ==>
              r.result == CliSuccess && r.state.held == s.held + QueueLockSet(queues)
    ensures queueChecks && s.dangerous && EqualsIgnoreCase(what, "global_unlock") ==>
              r.result == CliSuccess && r.state.held == s.held - {QueuesContainer}
    ensures queueChecks && s.dangerous && EqualsIgnoreCase(what, "unlock") ==>
              r.result == CliSuccess && r.state.held == s.held - QueueLockSet(queues)
    ensures r.result == CliShowUsage <==>
              && queueChecks && s.dangerous
              && !EqualsIgnoreCase(what, "global_lock") && !EqualsIgnoreCase(what, "lock")
              && !EqualsIgnoreCase(what, "global_unlock") && !EqualsIgnoreCase(what, "unlock")
    // a command that does not succeed changes nothing; a success logs one warning
    ensures r.result != CliSuccess ==> r.state == s && r.warnings == []
    ensures r.result == CliSuccess ==> |r.warnings| == 1
    // the channels container lock and the flag are never touched
    ensures (ChannelsContainer in r.state.held <==> ChannelsContainer in s.held)
    ensures r.state.dangerous == s.dangerous
  {
    if !queueChecks then CliReply(CliFailure, s, QueueRefusedNotice, [])
    else if !s.dangerous then CliReply(CliFailure, s, RefusedNotice, [])
    else if EqualsIgnoreCase(what, "global_lock") then
      CliReply(CliSuccess, FreezeState(s.dangerous, Acquire(s.held, QueuesContainer)),
               QueueContainerLocked, [QueueContainerLocked])
    else if EqualsIgnoreCase(what, "lock") then
      CliReply(CliSuccess, FreezeState(s.dangerous, s.held + QueueLockSet(queues)),
               QueuesLocked, [QueuesLocked])
    else if EqualsIgnoreCase(what, "global_unlock") then
      CliReply(CliSuccess, FreezeState(s.dangerous, Release(s.held, QueuesContainer)),
               QueueContainerUnlockedNotice, [QueueContainerUnlockedWarning])
    else if EqualsIgnoreCase(what, "unlock") then
      CliReply(CliSuccess, FreezeState(s.dangerous, s.held - QueueLockSet(queues)),
               QueuesUnlockedNotice, [QueuesUnlockedWarning])
    else CliReply(CliShowUsage, s, "", [])
  }

  /** Locking and then unlocking the queues over the same snapshot frees
      every queue of it and leaves every other lock as it was. */
  lemma QueueLockThenUnlock(s: FreezeState, queues: seq<QueueId>)
    requires s.dangerous
    ensures var r := CliQueue(CliQueue(s, true, queues, "unlock").state, true, queues, "lock");
      r.state.held == s.held + QueueLockSet(queues)
    ensures var r := CliQueue(CliQueue(s, true, queues, "lock").state, true, queues, "unlock");
      && (forall q :: q in queues ==> QueueLock(q) !in r.state.held)
      && (forall l: LockId :: !l.QueueLock? ==> (l in r.state.held <==> l in s.held))
  {
    assert !EqualsIgnoreCase("lock", "global_lock") && !EqualsIgnoreCase("unlock", "global_unlock");
    assert !EqualsIgnoreCase("unlock", "lock");
  }

  /** The state when the module is loaded: the dangerous commands are off,
      and the locks are whatever the rest of Asterisk holds. */
  function AtLoad(held: Held): FreezeState
  {
    FreezeState(DangerousAtLoad, held)
  }

  /** A run of one of the three commands with its last word. */
  datatype Command = EnableCmd(what: string) | ChannelCmd(what: string) | QueueCmd(what: string)

  /** A successful `freeze enable`. */
  predicate Enables(c: Command)
  {
    c.EnableCmd? && EqualsIgnoreCase(c.what, "enable")
  }

  function Exec(s: FreezeState, queueChecks: bool, queues: seq<QueueId>, c: Command): CliReply
  {
    match c
    case EnableCmd(what) => CliEnable(s, what)
    case ChannelCmd(what) => CliChannel(s, what)
    case QueueCmd(what) => CliQueue(s, queueChecks, queues, what)
  }

  /** The replies to a sequence of commands, each run in the state the
      previous one left. */
  function Replay(s: FreezeState, queueChecks: bool, queues: seq<QueueId>, cmds: seq<Command>): (rs: seq<CliReply>)
    decreases |cmds|
    ensures |rs| == |cmds|
  {
    if |cmds| == 0 then []
    else
      var r := Exec(s, queueChecks, queues, cmds[0]);
      [r] + Replay(r.state, queueChecks, queues, cmds[1..])
  }

  /** While the dangerous commands are off, every lock command is refused
      and no command changes the state, until the first successful
      `freeze enable` (position `k`, or the end). */
  lemma {:induction false} RefusedWhileDisabled(s: FreezeState, queueChecks: bool, queues: seq<QueueId>,
                                                cmds: seq<Command>, k: nat)
    requires !s.dangerous
    requires k <= |cmds|
    requires forall i :: 0 <= i < k ==> !Enables(cmds[i])
    ensures var rs := Replay(s, queueChecks, queues, cmds);
      forall i :: 0 <= i < k ==>
        && rs[i].state == s
        && (!cmds[i].EnableCmd? ==> rs[i].result == CliFailure)
  {
    if k > 0 {
      var rs := Replay(s, queueChecks, queues, cmds);
      var r := Exec(s, queueChecks, queues, cmds[0]);
      assert !Enables(cmds[0]);
      assert r.state == s;
      RefusedWhileDisabled(s, queueChecks, queues, cmds[1..], k - 1);
      var rest := Replay(s, queueChecks, queues, cmds[1..]);
      assert rs == [r] + rest;
      forall i | 0 < i < k
        ensures rs[i].state == s && (!cmds[i].EnableCmd? ==> rs[i].result == CliFailure)
      {
        assert rs[i] == rest[i - 1] && cmds[1..][i - 1] == cmds[i];
      }
    }
  }

  /** From load, the lock commands are refused until a successful
      `freeze enable`. */
  lemma LockedOutAtLoad(held: Held, queueChecks: bool, queues: seq<QueueId>, cmds: seq<Command>, k: nat)
    requires k <= |cmds|
    requires forall i :: 0 <= i < k ==> !Enables(cmds[i])
    ensures !AtLoad(held).dangerous
    ensures var rs := Replay(AtLoad(held), queueChecks, queues, cmds);
      forall i :: 0 <= i < k ==>
        && rs[i].state == AtLoad(held)
        && (cmds[i].ChannelCmd? || cmds[i].QueueCmd? ==> rs[i].result == CliFailure)
  {
    RefusedWhileDisabled(AtLoad(held), queueChecks, queues, cmds, k);
  }

  /** How the CLI calls a handler: to register it, to complete a word, or to run it on a word. */
  datatype CliCall = CliInit | CliGenerate | CliExec(what: string)

  /** What a handler call produced: the command text and usage filled in at
      registration, no completion, or the reply to a run. */
  datatype HandlerOut = Registered(command: string, usage: string) | NoCompletion | Replied(reply: CliReply)

  const QueueCommand := "freeze queue {global_lock|lock|global_unlock|unlock}"
  const QueueUsage := "Usage: freeze queue {global_lock|lock|global_unlock|unlock}\n"

  /** The queue command's handler as written: the queue-availability check
      comes before the registration and completion cases. */
  function CliQueueHandlerAsWritten(call: CliCall, s: FreezeState, queueChecks: bool, queues: seq<QueueId>): (h: HandlerOut)
    ensures !queueChecks ==> h == Replied(CliReply(CliFailure, s, QueueRefusedNotice, []))
    ensures queueChecks ==> h == CliQueueHandler(call, s, queueChecks, queues)
  {
    if !queueChecks then Replied(CliReply(CliFailure, s, QueueRefusedNotice, []))
    else
      match call
      case CliInit => Registered(QueueCommand, QueueUsage)
      case CliGenerate => NoCompletion
      case CliExec(what) => Replied(CliQueue(s, queueChecks, queues, what))
  }

  /** With queue checks off, the registration call of the handler as written
      fills in no command text: it answers like a refused run. */
  lemma AsWrittenRegistrationFailsWithoutQueues(s: FreezeState, queues: seq<QueueId>)
    ensures !CliQueueHandlerAsWritten(CliInit, s, false, queues).Registered?
    ensures CliQueueHandlerAsWritten(CliInit, s, false, queues).reply.result == CliFailure
  {
  }

  /** The queue command's handler with the registration and completion cases
      first: it registers whatever the queue availability, and a run behaves
      as `CliQueue`. */
  function CliQueueHandler(call: CliCall, s: FreezeState, queueChecks: bool, queues: seq<QueueId>): (h: HandlerOut)
    ensures call.CliInit? ==> h == Registered(QueueCommand, QueueUsage)
    ensures call.CliGenerate? ==> h == NoCompletion
    ensures call.CliExec? ==> h.Replied? && h.reply == CliQueue(s, queueChecks, queues, call.what)
  {
    match call
    case CliInit => Registered(QueueCommand, QueueUsage)
    case CliGenerate => NoCompletion
    case CliExec(what) => Replied(CliQueue(s, queueChecks, queues, what))
  }

  /** The correction changes registration and completion only: every run of
      the command behaves the same in both. */
  lemma CorrectionKeepsRuns(s: FreezeState, queueChecks: bool, queues: seq<QueueId>, what: string)
    ensures CliQueueHandler(CliExec(what), s, queueChecks, queues)
         == CliQueueHandlerAsWritten(CliExec(what), s, queueChecks, queues)
  {
  }
}
