/** The watchdog thread's loop (`checker_run`). Each iteration waits on the
    checker's eventfd with a timeout of one interval; the outcome of `poll`
    and everything a pass then observes are inputs, one `Tick` per
    iteration. Aborting the process is a verdict, not an action. */
module Watchdog {

  import opened Locks
  import opened Probe
  import opened Checker

  /** The `poll` timeout, in milliseconds, for an interval in whole seconds. */
  function PollTimeoutMs(c: Checker): (ms: int)
    ensures ms % 1000 == 0 && ms / 1000 == c.interval
  {
    c.interval * 1000
  }

  /** With the defaults the loop wakes once a minute and each probe waits at
      most half of that. */
  lemma DefaultSchedule(eventfd: int)
    requires eventfd != -1
    ensures PollTimeoutMs(CheckerInit(eventfd).value) == 60000
    ensures 2 * CheckerInit(eventfd).value.timeout * 1000 == PollTimeoutMs(CheckerInit(eventfd).value)
  {
  }

  /** What `poll` returned and the `revents` it left on the eventfd. */
  datatype PollAnswer = PollAnswer(ret: int, revents: int)

  /** Why `poll` returned: it failed, the eventfd reported any event at all
      (a stop request written to it, but equally an error, hang-up or
      invalid-descriptor condition), or the interval elapsed. */
  datatype Wake = PollFailed | Woken | Elapsed

  function WakeOf(p: PollAnswer): Wake
  {
    if p.ret == -1 then PollFailed
    else if p.revents != 0 then Woken
    else Elapsed
  }

  /** One iteration as the environment plays it: the poll outcome, then, for
      a pass, the queue snapshot, the lock state and the probe answers. */
  datatype Tick = Tick(poll: PollAnswer, queues: seq<QueueId>, held: Held, env: nat -> ProbeAnswer)

  /** The pass the loop runs on an elapsed tick. The loop is stated for any
      pass; `CheckerPass` is the checker's own. */
  type Pass = Tick -> PassReport

  /** `checker_check_mutexes` bound to the checker and the load-time queue decision. */
  function CheckerPass(c: Checker, queueChecks: bool): Pass
  {
    (t: Tick) => CheckMutexes(c, queueChecks, t.queues, t.held, t.env)
  }

  /** A tick after which the loop goes on: the interval elapsed and the pass returned 0. */
  predicate Quiet(pass: Pass, t: Tick)
  {
    WakeOf(t.poll) == Elapsed && pass(t).result == PassOk
  }

  /** What one iteration decides: leave the loop without a pass, go on after
      a pass, or abort the process after a pass. */
  datatype Step = Stop(reason: Wake) | Continue(pass: PassReport) | Abort(pass: PassReport)

  function LoopStep(pass: Pass, t: Tick): (s: Step)
    // a poll error or any event on the eventfd ends the loop before any pass starts
    ensures s.Stop? <==> WakeOf(t.poll) != Elapsed
    ensures s.Stop? ==> s.reason == WakeOf(t.poll)
    ensures !s.Stop? ==> s.pass == pass(t)
    // any nonzero pass result aborts
    ensures s.Abort? <==> WakeOf(t.poll) == Elapsed && pass(t).result != PassOk
  {
    match WakeOf(t.poll)
    case PollFailed => Stop(PollFailed)
    case Woken => Stop(Woken)
    case Elapsed =>
      var report := pass(t);
      if report.result != PassOk then Abort(report) else Continue(report)
  }

  /** Only a timeout makes the checker's loop abort: an iteration aborts
      exactly when its interval elapsed and some lock of its pass timed out. */
  lemma OnlyTimeoutAborts(c: Checker, queueChecks: bool, t: Tick)
    ensures LoopStep(CheckerPass(c, queueChecks), t).Abort? <==>
              && WakeOf(t.poll) == Elapsed
              && exists j :: 0 <= j < |ProbeOrder(queueChecks, t.queues)| && TimesOut(t.env(j))
  {
  }

  /** How the loop ended: it left the loop (for the given reason), it aborted
      the process, or it is still waiting because the ticks ran out. */
  datatype Verdict = Stopped(reason: Wake) | Aborted | Waiting

  datatype RunReport = RunReport(verdict: Verdict, passes: seq<PassReport>)

  /** The loop played over a finite sequence of ticks. */
  function Run(pass: Pass, ticks: seq<Tick>): (r: RunReport)
    decreases |ticks|
    ensures |r.passes| <= |ticks|
    ensures r.verdict.Stopped? ==>
              && |r.passes| < |ticks|
              && r.verdict.reason == WakeOf(ticks[|r.passes|].poll)
              && r.verdict.reason != Elapsed
              && (|r.passes| > 0 ==> r.passes[|r.passes| - 1].result == PassOk)
    ensures r.verdict.Aborted? ==>
              |r.passes| > 0 && r.passes[|r.passes| - 1].result != PassOk
    ensures r.verdict.Waiting? ==>
              |r.passes| == |ticks| && (|r.passes| > 0 ==> r.passes[|r.passes| - 1].result == PassOk)
  {
    if |ticks| == 0 then RunReport(Waiting, [])
    else
      match LoopStep(pass, ticks[0])
      case Stop(reason) => RunReport(Stopped(reason), [])
      case Abort(report) => RunReport(Aborted, [report])
      case Continue(report) =>
        var rest := Run(pass, ticks[1..]);
        RunReport(rest.verdict, [report] + rest.passes)
  }

  /** Pass i of a run is the pass of tick i, whose interval elapsed, and
      every pass before the last one found nothing. */
  lemma {:induction false} RunPasses(pass: Pass, ticks: seq<Tick>)
    ensures var r := Run(pass, ticks);
      && (forall i :: 0 <= i < |r.passes| ==>
            WakeOf(ticks[i].poll) == Elapsed && r.passes[i] == pass(ticks[i]))
      && (forall i :: 0 <= i < |r.passes| - 1 ==> r.passes[i].result == PassOk)
  {
    if |ticks| > 0 && LoopStep(pass, ticks[0]).Continue? {
      var r := Run(pass, ticks);
      var rest := Run(pass, ticks[1..]);
      RunPasses(pass, ticks[1..]);
      assert r.passes == [pass(ticks[0])] + rest.passes;
      // pass i + 1 of the run is pass i of the run from the second tick
      forall i | 0 < i < |r.passes|
        ensures WakeOf(ticks[i].poll) == Elapsed && r.passes[i] == pass(ticks[i])
        ensures i < |r.passes| - 1 ==> r.passes[i].result == PassOk
      {
        assert r.passes[i] == rest.passes[i - 1] && ticks[1..][i - 1] == ticks[i];
      }
    }
  }

  /** The loop is decided by its first tick that is not quiet: an event on
      the eventfd or a poll failure there ends it with no further pass, a failing pass there
      aborts the process; every earlier tick ran exactly one passing pass. */
  lemma {:induction false} FirstNonQuietTickDecides(pass: Pass, ticks: seq<Tick>, k: nat)
    requires k < |ticks|
    requires forall i :: 0 <= i < k ==> Quiet(pass, ticks[i])
    requires !Quiet(pass, ticks[k])
    ensures var r := Run(pass, ticks);
      if WakeOf(ticks[k].poll) == Elapsed then r.verdict == Aborted && |r.passes| == k + 1
      else r.verdict == Stopped(WakeOf(ticks[k].poll)) && |r.passes| == k
  {
    if k > 0 {
      assert Quiet(pass, ticks[0]);
      assert forall i :: 0 <= i < k - 1 ==> ticks[1..][i] == ticks[i + 1];
      FirstNonQuietTickDecides(pass, ticks[1..], k - 1);
    }
  }

  /** While every tick is quiet the loop keeps running one passing pass per
      tick and never stops or aborts. */
  lemma {:induction false} AllQuietKeepsRunning(pass: Pass, ticks: seq<Tick>)
    requires forall i :: 0 <= i < |ticks| ==> Quiet(pass, ticks[i])
    ensures Run(pass, ticks).verdict == Waiting
    ensures |Run(pass, ticks).passes| == |ticks|
  {
    if |ticks| > 0 {
      assert Quiet(pass, ticks[0]);
      assert forall i :: 0 <= i < |ticks| - 1 ==> ticks[1..][i] == ticks[i + 1];
      AllQuietKeepsRunning(pass, ticks[1..]);
    }
  }

  /** An event on the eventfd (normally a stop request) is honoured before
      the next pass starts: if it shows at tick `k` the loop leaves with
      exactly the `k` passes before. */
  lemma WakeBeforePass(pass: Pass, ticks: seq<Tick>, k: nat)
    requires k < |ticks|
    requires forall i :: 0 <= i < k ==> Quiet(pass, ticks[i])
    requires WakeOf(ticks[k].poll) == Woken
    ensures Run(pass, ticks).verdict == Stopped(Woken)
    ensures |Run(pass, ticks).passes| == k
  {
    FirstNonQuietTickDecides(pass, ticks, k);
  }

  /** The loop aborts the process exactly when some tick's pass fails before
      any stop or poll failure. */
  lemma AbortIffFailingPass(pass: Pass, ticks: seq<Tick>)
    ensures Run(pass, ticks).verdict == Aborted <==>
              exists k :: 0 <= k < |ticks| && FailsAfterQuiet(pass, ticks, k)
  {
    var r := Run(pass, ticks);
    RunPasses(pass, ticks);
    if r.verdict == Aborted {
      assert FailsAfterQuiet(pass, ticks, |r.passes| - 1);
    }
    if exists k :: 0 <= k < |ticks| && FailsAfterQuiet(pass, ticks, k) {
      var k :| 0 <= k < |ticks| && FailsAfterQuiet(pass, ticks, k);
      FirstNonQuietTickDecides(pass, ticks, k);
    }
  }

  /** Tick `k` runs a failing pass and every tick before it was quiet. */
  predicate FailsAfterQuiet(pass: Pass, ticks: seq<Tick>, k: nat)
    requires k < |ticks|
  {
    && WakeOf(ticks[k].poll) == Elapsed
    && pass(ticks[k]).result != PassOk
    && forall i :: 0 <= i < k ==> Quiet(pass, ticks[i])
  }

  /** The loop as the module writes it: `for (;;)` over the ticks, leaving on
      a stop, aborting on a failing pass. It agrees with `Run`. */
  method RunLoop(pass: Pass, ticks: seq<Tick>) returns (verdict: Verdict, passes: nat)
    ensures verdict == Run(pass, ticks).verdict
    ensures passes == |Run(pass, ticks).passes|
  {
    var i := 0;
    while i < |ticks|
      invariant 0 <= i <= |ticks|
      invariant Run(pass, ticks).verdict == Run(pass, ticks[i..]).verdict
      invariant |Run(pass, ticks).passes| == i + |Run(pass, ticks[i..]).passes|
    {
      assert ticks[i..][0] == ticks[i] && ticks[i..][1..] == ticks[i + 1..];
      var s := LoopStep(pass, ticks[i]);
      match s
      case Stop(reason) =>
        return Stopped(reason), i;
      case Abort(_) =>
        return Aborted, i + 1;
      case Continue(_) =>
        i := i + 1;
    }
    return Waiting, i;
  }
}
