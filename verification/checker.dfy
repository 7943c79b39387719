/** The checker of the main module version: its configuration
    (`checker_init`), the fixed probe order, one probe pass
    (`checker_check_mutexes`) and the queue-availability decision made when
    the module is loaded. */
module Checker {

  import opened Basics
  import opened Locks
  import opened Probe

  const DefaultCheckIntervalSecs: int := 60
  const DefaultCheckTimeoutSecs: int := 30

  /** The pass results: every probe passed, or some lock timed out. */
  const PassOk: int := 0
  const PassFailed: int := -1

  /** The checker: its wake-up eventfd, the interval between passes and the
      per-lock probe timeout, both in seconds. */
  datatype Checker = Checker(eventfd: int, interval: int, timeout: int)

  /** A configuration whose probes cannot overlap the next pass. */
  predicate Sound(c: Checker)
  {
    0 < c.timeout < c.interval
  }

  /** Initialise the checker from the descriptor `eventfd()` returned; -1
      means it failed and the checker cannot be used. */
  function CheckerInit(eventfd: int): (r: Option<Checker>)
    ensures r.None? <==> eventfd == -1
    ensures r.Some? ==>
              && r.value.eventfd == eventfd
              && r.value.interval == DefaultCheckIntervalSecs
              && r.value.timeout == DefaultCheckTimeoutSecs
              && Sound(r.value)
  {
    if eventfd == -1 then None
    else Some(Checker(eventfd, DefaultCheckIntervalSecs, DefaultCheckTimeoutSecs))
  }

  /** The locks one pass probes, in order: the channels container lock, then,
      when queue checks are on, the queues container lock and every queue of
      the iteration snapshot. */
  function ProbeOrder(queueChecks: bool, queues: seq<QueueId>): (order: seq<LockId>)
    ensures |order| >= 1 && order[0] == ChannelsContainer
    ensures !queueChecks ==> order == [ChannelsContainer]
    ensures queueChecks ==>
              && |order| == 2 + |queues|
              && order[1] == QueuesContainer
              && forall j :: 0 <= j < |queues| ==> order[2 + j] == QueueLock(queues[j])
  {
    if queueChecks then [ChannelsContainer, QueuesContainer] + QueueLocks(queues)
    else [ChannelsContainer]
  }

  /** One probe of a pass: which lock, and what the probe reported. */
  datatype ProbeRecord = ProbeRecord(lock: LockId, report: ProbeReport)

  /** The outcome of one pass: its result, the probes made in order, and the
      lock state left behind. */
  datatype PassReport = PassReport(result: int, probes: seq<ProbeRecord>, held: Held)

  /** Probe `order[i..]`, where `env(j)` is the environment's answer to the
      probe at position `j`. The first timeout ends the pass; an error is not
      fatal and probing goes on. */
  function PassFrom(timeout: int, order: seq<LockId>, held: Held, env: nat -> ProbeAnswer, i: nat): (r: PassReport)
    requires i <= |order|
    decreases |order| - i
    ensures r.result == PassOk || r.result == PassFailed
    ensures r.result == PassFailed <==> exists j :: i <= j < |order| && TimesOut(env(j))
    ensures |r.probes| <= |order| - i
    ensures forall k :: 0 <= k < |r.probes| ==> r.probes[k].lock == order[i + k]
    ensures forall k :: 0 <= k < |r.probes| ==>
              (r.probes[k].report.result == CheckMutexTimedOut <==> TimesOut(env(i + k)))
    ensures r.result == PassOk ==> |r.probes| == |order| - i
    ensures r.result == PassFailed ==>
              && |r.probes| > 0
              && TimesOut(env(i + |r.probes| - 1))
              && forall j :: i <= j < i + |r.probes| - 1 ==> !TimesOut(env(j))
    ensures r.held <= held
    ensures (forall j :: i <= j < |order| ==> Plausible(held, order[j], env(j))) ==> r.held == held
  {
    if i == |order| then PassReport(PassOk, [], held)
    else
      var p := CheckMutex(held, order[i], timeout, env(i));
      if p.result == CheckMutexTimedOut then
        PassReport(PassFailed, [ProbeRecord(order[i], p)], p.held)
      else
        var rest := PassFrom(timeout, order, p.held, env, i + 1);
        PassReport(rest.result, [ProbeRecord(order[i], p)] + rest.probes, rest.held)
  }

  /** One pass of the checker over the channels lock and, when queue checks
      are on, the queue locks of the snapshot `queues`. */
  function CheckMutexes(c: Checker, queueChecks: bool, queues: seq<QueueId>, held: Held, env: nat -> ProbeAnswer): (r: PassReport)
    ensures var order := ProbeOrder(queueChecks, queues);
      && (r.result == PassOk || r.result == PassFailed)
      // only a timeout is fatal
      && (r.result == PassFailed <==> exists j :: 0 <= j < |order| && TimesOut(env(j)))
      // the fixed order, cut short after the first timeout
      && |r.probes| <= |order|
      && (forall k :: 0 <= k < |r.probes| ==> r.probes[k].lock == order[k])
      && (r.result == PassOk ==> |r.probes| == |order|)
      && (r.result == PassFailed ==>
            |r.probes| > 0 && TimesOut(env(|r.probes| - 1))
            && forall j :: 0 <= j < |r.probes| - 1 ==> !TimesOut(env(j)))
      // with queue checks off only the channels container is probed
      && (!queueChecks ==> |r.probes| == 1 && r.probes[0].lock == ChannelsContainer)
      // a pass leaves no lock held that was not held before
      && r.held <= held
    // every probe waits until its own clock reading plus the checker's timeout
    ensures DeadlinesOk(c.timeout, r.probes, env, 0)
  {
    PassDeadlines(c.timeout, ProbeOrder(queueChecks, queues), held, env, 0);
    PassFrom(c.timeout, ProbeOrder(queueChecks, queues), held, env, 0)
  }

  /** Probe `k` of `probes`, made at position `i + k`, waited for the
      deadline `timeout` seconds after the clock reading it was given. */
  ghost predicate DeadlinesOk(timeout: int, probes: seq<ProbeRecord>, env: nat -> ProbeAnswer, i: nat)
  {
    forall k :: 0 <= k < |probes| ==> probes[k].report.deadline == DeadlineOf(env(i + k), timeout)
  }

  /** A probe at position `i` followed by probes from `i + 1` on. */
  lemma DeadlinesCons(timeout: int, first: ProbeRecord, rest: seq<ProbeRecord>, env: nat -> ProbeAnswer, i: nat)
    requires first.report.deadline == DeadlineOf(env(i), timeout)
    requires DeadlinesOk(timeout, rest, env, i + 1)
    ensures DeadlinesOk(timeout, [first] + rest, env, i)
  {
    forall k | 0 <= k < |[first] + rest|
      ensures ([first] + rest)[k].report.deadline == DeadlineOf(env(i + k), timeout)
    {
      if k > 0 {
        assert ([first] + rest)[k] == rest[k - 1];
        assert i + k == (i + 1) + (k - 1);
      }
    }
  }

  /** Every probe of a pass is given the pass's timeout. */
  lemma {:induction false} PassDeadlines(timeout: int, order: seq<LockId>, held: Held, env: nat -> ProbeAnswer, i: nat)
    requires i <= |order|
    decreases |order| - i
    ensures DeadlinesOk(timeout, PassFrom(timeout, order, held, env, i).probes, env, i)
  {
    if i < |order| {
      var p := CheckMutex(held, order[i], timeout, env(i));
      if p.result != CheckMutexTimedOut {
        PassDeadlines(timeout, order, p.held, env, i + 1);
        DeadlinesCons(timeout, ProbeRecord(order[i], p), PassFrom(timeout, order, p.held, env, i + 1).probes, env, i);
      }
    }
  }

  /** The locks a pass probed, in order. */
  function ProbedLocks(probes: seq<ProbeRecord>): (ls: seq<LockId>)
    ensures |ls| == |probes|
    ensures forall k :: 0 <= k < |probes| ==> ls[k] == probes[k].lock
  {
    seq(|probes|, k requires 0 <= k < |probes| => probes[k].lock)
  }

  /** What a pass that returned `ret` after probing `probed` must look like:
      a prefix of the probe order that ends at the first timeout, or all of
      it when nothing timed out. */
  ghost predicate PassShape(order: seq<LockId>, env: nat -> ProbeAnswer, ret: int, probed: seq<LockId>)
  {
    && |probed| <= |order|
    && (forall k :: 0 <= k < |probed| ==> probed[k] == order[k])
    && (ret == PassOk ==> |probed| == |order| && forall j :: 0 <= j < |order| ==> !TimesOut(env(j)))
    && (ret == PassFailed ==>
          |probed| > 0 && TimesOut(env(|probed| - 1))
          && forall j :: 0 <= j < |probed| - 1 ==> !TimesOut(env(j)))
    && (ret == PassOk || ret == PassFailed)
  }

  /** There is only one first timeout. */
  lemma FirstTimeoutUnique(env: nat -> ProbeAnswer, a: nat, b: nat)
    requires TimesOut(env(a)) && forall j :: 0 <= j < a ==> !TimesOut(env(j))
    requires TimesOut(env(b)) && forall j :: 0 <= j < b ==> !TimesOut(env(j))
    ensures a == b
  {
  }

  /** Two outcomes of the same shape over the same order and answers are the
      same outcome. */
  lemma ShapeUnique(order: seq<LockId>, env: nat -> ProbeAnswer, ret1: int, probed1: seq<LockId>,
                    ret2: int, probed2: seq<LockId>)
    requires PassShape(order, env, ret1, probed1)
    requires PassShape(order, env, ret2, probed2)
    ensures ret1 == ret2 && probed1 == probed2
  {
    if ret1 == PassFailed && ret2 == PassFailed {
      FirstTimeoutUnique(env, |probed1| - 1, |probed2| - 1);
    }
    assert |probed1| == |probed2|;
    assert forall k :: 0 <= k < |probed1| ==> probed1[k] == probed2[k];
  }

  /** A pass over any order has the shape its rules demand. */
  lemma PassFromOutline(timeout: int, order: seq<LockId>, held: Held, env: nat -> ProbeAnswer)
    ensures var r := PassFrom(timeout, order, held, env, 0);
      PassShape(order, env, r.result, ProbedLocks(r.probes))
  {
    var r := PassFrom(timeout, order, held, env, 0);
    var ls := ProbedLocks(r.probes);
    forall k | 0 <= k < |ls|
      ensures ls[k] == order[k]
    {
      assert ls[k] == r.probes[k].lock;
    }
    if r.result == PassOk {
      assert !exists j :: 0 <= j < |order| && TimesOut(env(j));
    }
  }

  /** The checker's pass has the shape its rules demand. */
  lemma PassOutline(c: Checker, queueChecks: bool, queues: seq<QueueId>, held: Held, env: nat -> ProbeAnswer)
    ensures var r := CheckMutexes(c, queueChecks, queues, held, env);
      PassShape(ProbeOrder(queueChecks, queues), env, r.result, ProbedLocks(r.probes))
  {
    PassFromOutline(c.timeout, ProbeOrder(queueChecks, queues), held, env);
  }

  /** A pass is determined by its shape: whatever produces a result and a
      probe list of that shape agrees with `CheckMutexes`. */
  lemma ShapeDeterminesPass(c: Checker, queueChecks: bool, queues: seq<QueueId>, held: Held,
                            env: nat -> ProbeAnswer, ret: int, probed: seq<LockId>)
    requires PassShape(ProbeOrder(queueChecks, queues), env, ret, probed)
    ensures ret == CheckMutexes(c, queueChecks, queues, held, env).result
    ensures probed == ProbedLocks(CheckMutexes(c, queueChecks, queues, held, env).probes)
  {
    var r := CheckMutexes(c, queueChecks, queues, held, env);
    PassOutline(c, queueChecks, queues, held, env);
    ShapeUnique(ProbeOrder(queueChecks, queues), env, ret, probed, r.result, ProbedLocks(r.probes));
  }

  /** The pass written the way the module iterates: the channels container,
      then the queues container, then a loop over the queue snapshot,
      returning at the first timeout. It agrees with `CheckMutexes`. */
  method CheckMutexesLoop(c: Checker, queueChecks: bool, queues: seq<QueueId>, held: Held, env: nat -> ProbeAnswer)
    returns (ret: int, probed: seq<LockId>)
    ensures ret == CheckMutexes(c, queueChecks, queues, held, env).result
    ensures probed == ProbedLocks(CheckMutexes(c, queueChecks, queues, held, env).probes)
  {
    ghost var order := ProbeOrder(queueChecks, queues);
    var p := CheckMutex(held, ChannelsContainer, c.timeout, env(0));
    probed := [ChannelsContainer];
    ret := PassOk;
    if p.result == CheckMutexTimedOut {
      ret := PassFailed;
    } else if queueChecks {
      p := CheckMutex(held, QueuesContainer, c.timeout, env(1));
      probed := probed + [QueuesContainer];
      if p.result == CheckMutexTimedOut {
        ret := PassFailed;
      } else {
        ret, probed := ProbeQueues(c, queues, held, env, probed, order);
      }
    }
    ShapeDeterminesPass(c, queueChecks, queues, held, env, ret, probed);
  }

  /** The loop over the queue snapshot, once the two container probes
      `prefix` found no timeout: it probes every queue lock in turn and
      returns at the first timeout. `order` is the whole probe order. */
  method ProbeQueues(c: Checker, queues: seq<QueueId>, held: Held, env: nat -> ProbeAnswer,
                     prefix: seq<LockId>, ghost order: seq<LockId>)
    returns (ret: int, probed: seq<LockId>)
    requires |prefix| == 2 && |order| == |queues| + 2
    requires forall j :: 0 <= j < 2 ==> prefix[j] == order[j] && !TimesOut(env(j))
    requires forall j :: 0 <= j < |queues| ==> order[j + 2] == QueueLock(queues[j])
    ensures PassShape(order, env, ret, probed)
  {
    probed := prefix;
    ret := PassOk;
    var k := 0;
    while k < |queues| && ret == PassOk
      invariant 0 <= k <= |queues|
      invariant ret == PassOk ==> |probed| == k + 2 && forall j :: 0 <= j < k + 2 ==> !TimesOut(env(j))
      invariant ret == PassOk ==> forall j :: 0 <= j < |probed| ==> probed[j] == order[j]
      invariant ret != PassOk ==> PassShape(order, env, ret, probed)
    {
      var p := CheckMutex(held, QueueLock(queues[k]), c.timeout, env(k + 2));
      probed := probed + [QueueLock(queues[k])];
      if p.result == CheckMutexTimedOut {
        ret := PassFailed;
      }
      k := k + 1;
    }
  }

  /** Error answers are not fatal: two environments that agree on which
      probes time out give passes with the same result over the same locks,
      however their other answers (obtained, clock failure, any other error
      code) differ. */
  lemma OnlyTimeoutsMatter(c: Checker, queueChecks: bool, queues: seq<QueueId>, held: Held, held': Held,
                           env: nat -> ProbeAnswer, env': nat -> ProbeAnswer)
    requires forall j :: TimesOut(env(j)) <==> TimesOut(env'(j))
    ensures CheckMutexes(c, queueChecks, queues, held, env).result
         == CheckMutexes(c, queueChecks, queues, held', env').result
    ensures ProbedLocks(CheckMutexes(c, queueChecks, queues, held, env).probes)
         == ProbedLocks(CheckMutexes(c, queueChecks, queues, held', env').probes)
  {
    var order := ProbeOrder(queueChecks, queues);
    var r := CheckMutexes(c, queueChecks, queues, held, env);
    var r' := CheckMutexes(c, queueChecks, queues, held', env');
    PassOutline(c, queueChecks, queues, held, env);
    PassOutline(c, queueChecks, queues, held', env');
    // the shape speaks of the answers only through `TimesOut`
    assert PassShape(order, env', r.result, ProbedLocks(r.probes));
    ShapeUnique(order, env', r.result, ProbedLocks(r.probes), r'.result, ProbedLocks(r'.probes));
  }

  /** The answers of ideal mutexes, all probed at `now`, to the probes of
      `order` (positions past the end are never asked). */
  function IdealEnv(held: Held, order: seq<LockId>, now: Timespec): nat -> ProbeAnswer
  {
    (j: nat) => if j < |order| then IdealAnswer(held, order[j], now) else ProbeAnswer(Some(now), 0)
  }

  /** Against ideal mutexes a pass fails exactly when some lock it would probe
      is held by another thread; it then stops at the first such lock in
      probe order, and it never changes the lock state. */
  lemma IdealPass(c: Checker, queueChecks: bool, queues: seq<QueueId>, held: Held, now: Timespec)
    ensures var order := ProbeOrder(queueChecks, queues);
      var r := CheckMutexes(c, queueChecks, queues, held, IdealEnv(held, order, now));
      && (r.result == PassFailed <==> exists j :: 0 <= j < |order| && order[j] in held)
      && (r.result == PassFailed ==>
            && r.probes[|r.probes| - 1].lock in held
            && forall k :: 0 <= k < |r.probes| - 1 ==> r.probes[k].lock !in held)
      && r.held == held
  {
    var order := ProbeOrder(queueChecks, queues);
    var env := IdealEnv(held, order, now);
    // an ideal mutex times out exactly on a held lock and grants only a free one
    forall j | 0 <= j < |order|
      ensures TimesOut(env(j)) <==> order[j] in held
      ensures Plausible(held, order[j], env(j))
    {
      assert env(j) == IdealAnswer(held, order[j], now);
    }
    var r := CheckMutexes(c, queueChecks, queues, held, env);
    if r.result == PassFailed {
      var n := |r.probes| - 1;
      assert r.probes[n].lock == order[n] && TimesOut(env(n));
      assert forall k :: 0 <= k < n ==> r.probes[k].lock == order[k] && !TimesOut(env(k));
    }
  }

  /** Whether the queue application is loaded, and if so whether the two
      accessors the checker needs resolved. */
  datatype QueueApp = NoQueueApp | QueueApp(mutexResolved: bool, containerResolved: bool)

  datatype LoadStatus = LoadSuccess | LoadDecline

  /** What loading the module decided: its status, whether queue checks are
      on, the started checker, and the warnings logged. */
  datatype LoadReport = LoadReport(status: LoadStatus, queueChecks: bool, checker: Option<Checker>, warnings: seq<string>)

  const NoQueueAppWarning := "There is no Queue application available. Disabling queue checks.\n"
  const NoQueueSymbolsWarning := "The Queue application does not expose necessary symbols! Disabling queue checks.\n"

  /** Load the module, given the queue application lookup, the result of
      `eventfd()` and the return code of the thread creation. */
  function LoadModule(app: QueueApp, eventfd: int, createRet: int): (r: LoadReport)
    // queue checks are on exactly when the app was found with both accessors
    ensures r.queueChecks <==> app.QueueApp? && app.mutexResolved && app.containerResolved
    // the degradation is recorded once, and only when it happens
    ensures |r.warnings| == if r.queueChecks then 0 else 1
    ensures r.status == LoadSuccess <==> eventfd != -1 && createRet == 0
    ensures r.status == LoadSuccess <==>
              r.checker.Some? && r.checker.value.eventfd == eventfd && Sound(r.checker.value)
    // the started checker has the default 60 s interval and 30 s probe timeout
    ensures r.checker.Some? ==>
              && r.checker.value.interval == DefaultCheckIntervalSecs
              && r.checker.value.timeout == DefaultCheckTimeoutSecs
  {
    var queueChecks := app.QueueApp? && app.mutexResolved && app.containerResolved;
    var warnings :=
      if app.NoQueueApp? then [NoQueueAppWarning]
      else if !queueChecks then [NoQueueSymbolsWarning]
      else [];
    match CheckerInit(eventfd)
    case None => LoadReport(LoadDecline, queueChecks, None, warnings)
    case Some(c) =>
      if createRet != 0 then LoadReport(LoadDecline, queueChecks, None, warnings)
      else LoadReport(LoadSuccess, queueChecks, Some(c), warnings)
  }
}
