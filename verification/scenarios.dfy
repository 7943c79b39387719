/** End-to-end consequences that tie the dangerous commands, the probe pass
    and the watchdog loop together. */
module Scenarios {

  import opened Basics
  import opened Locks
  import opened Probe
  import opened Checker
  import opened Watchdog
  import opened Gate
  import opened FreezeCli

  /** With the flag off a direct lock is refused and changes nothing; after
      `freeze enable` the same command takes the channels container lock and
      logs one warning naming it. */
  lemma GateRefusesThenAllows(held: Held)
    ensures var off := FreezeState(false, held);
      CliChannel(off, "lock") == CliReply(CliFailure, off, RefusedNotice, [])
    ensures var on := CliEnable(FreezeState(false, held), "enable").state;
      var r := CliChannel(on, "lock");
      && r.result == CliSuccess
      && ChannelsContainer in r.state.held
      && r.warnings == [ChannelLocked]
  {
    assert EqualsIgnoreCase("enable", "enable") && EqualsIgnoreCase("lock", "lock");
  }

  /** After an operator locks the channels container through the CLI, the
      next elapsed tick, against ideal mutexes, aborts the process after
      probing that one lock and no other. */
  lemma ChannelLockedByOperatorAborts(c: Checker, queueChecks: bool, held: Held,
                                     poll: PollAnswer, queues: seq<QueueId>, now: Timespec)
    requires WakeOf(poll) == Elapsed
    ensures var s := CliChannel(CliEnable(FreezeState(false, held), "enable").state, "lock").state;
      var t := Tick(poll, queues, s.held, IdealEnv(s.held, ProbeOrder(queueChecks, queues), now));
      var step := LoopStep(CheckerPass(c, queueChecks), t);
      && step.Abort?
      && ProbedLocks(step.pass.probes) == [ChannelsContainer]
  {
    GateRefusesThenAllows(held);
    var s := CliChannel(CliEnable(FreezeState(false, held), "enable").state, "lock").state;
    var order := ProbeOrder(queueChecks, queues);
    var env := IdealEnv(s.held, order, now);
    var t := Tick(poll, queues, s.held, env);
    assert TimesOut(env(0));
    var pass := CheckerPass(c, queueChecks)(t);
    assert pass == CheckMutexes(c, queueChecks, queues, s.held, env);
    assert |pass.probes| == 1;
  }

  /** With no probe ever timing out and no event on the eventfd, the
      checker's loop runs one pass per tick and never aborts, however many
      probes fail with errors. */
  lemma NoTimeoutNeverAborts(c: Checker, queueChecks: bool, ticks: seq<Tick>)
    requires forall i :: 0 <= i < |ticks| ==> WakeOf(ticks[i].poll) == Elapsed
    requires forall i, j :: 0 <= i < |ticks| ==> !TimesOut(ticks[i].env(j))
    ensures Run(CheckerPass(c, queueChecks), ticks).verdict == Waiting
    ensures |Run(CheckerPass(c, queueChecks), ticks).passes| == |ticks|
  {
    var pass := CheckerPass(c, queueChecks);
    forall i | 0 <= i < |ticks|
      ensures Quiet(pass, ticks[i])
    {
      assert pass(ticks[i]) == CheckMutexes(c, queueChecks, ticks[i].queues, ticks[i].held, ticks[i].env);
    }
    AllQuietKeepsRunning(pass, ticks);
  }

  /** When loading finds the queue application missing or incomplete, the
      decision reaches both users of it: every pass probes the channels
      container lock alone, and every `freeze queue` run is refused with
      the state unchanged. */
  lemma NoQueueChecksDegrades(app: QueueApp, eventfd: int, createRet: int, c: Checker, t: Tick,
                              s: FreezeState, queues: seq<QueueId>, what: string)
    requires !LoadModule(app, eventfd, createRet).queueChecks
    ensures var queueChecks := LoadModule(app, eventfd, createRet).queueChecks;
      && ProbedLocks(CheckerPass(c, queueChecks)(t).probes) == [ChannelsContainer]
      && CliQueue(s, queueChecks, queues, what) == CliReply(CliFailure, s, QueueRefusedNotice, [])
  {
    var pass := CheckerPass(c, false)(t);
    assert pass == CheckMutexes(c, false, t.queues, t.held, t.env);
    assert |pass.probes| == 1;
  }
}
