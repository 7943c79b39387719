/** The timed probe of one lock (`check_mutex`). The clock and the timed lock
    primitive are not run: their answers are inputs supplied by the
    environment, and the probe classifies them. */
module Probe {

  import opened Basics
  import opened Locks

  /** `ETIMEDOUT` as defined on Linux. */
  const ETIMEDOUT: int := 110

  /** The probe's three results. */
  const CheckMutexAcquired: int := 0
  const CheckMutexTimedOut: int := 1
  const CheckMutexError: int := -1

  /** A `struct timespec` of the realtime clock. */
  datatype Timespec = Timespec(sec: int, nsec: int)

  /** What the environment answered during one probe: the reading of the
      realtime clock (`None` when `clock_gettime` failed) and the return code
      of `pthread_mutex_timedlock`. */
  datatype ProbeAnswer = ProbeAnswer(clock: Option<Timespec>, lockRet: int)

  /** The answer that means "deadline elapsed before the lock was obtained":
      the only one the watchdog treats as deadlock evidence. */
  predicate TimesOut(a: ProbeAnswer)
  {
    a.clock.Some? && a.lockRet == ETIMEDOUT
  }

  /** The answer that means the lock was obtained. */
  predicate Grants(a: ProbeAnswer)
  {
    a.clock.Some? && a.lockRet == 0
  }

  /** An answer a real mutex can give: it grants only a lock nobody holds. */
  predicate Plausible(held: Held, id: LockId, a: ProbeAnswer)
  {
    Grants(a) ==> id !in held
  }

  /** The probe's verdict, the absolute deadline it waited for (absent when
      no acquisition was attempted) and the lock state it leaves behind. */
  datatype ProbeReport = ProbeReport(result: int, deadline: Option<Timespec>, held: Held)

  /** The deadline a probe waits for when it reads the clock as `a.clock`
      and is given `timeout` whole seconds: none when the clock failed. */
  function DeadlineOf(a: ProbeAnswer, timeout: int): Option<Timespec>
  {
    match a.clock
    case None => None
    case Some(now) => Some(Timespec(now.sec + timeout, now.nsec))
  }

  /** Probe lock `id` with a deadline `timeout` whole seconds from now. */
  function CheckMutex(held: Held, id: LockId, timeout: int, answer: ProbeAnswer): (r: ProbeReport)
    // exactly three results: obtained, timed out, anything else is an error
    ensures r.result == CheckMutexAcquired <==> Grants(answer)
    ensures r.result == CheckMutexTimedOut <==> TimesOut(answer)
    ensures r.result == CheckMutexError <==> !Grants(answer) && !TimesOut(answer)
    // a failed clock read means no acquisition was attempted
    ensures answer.clock.None? ==> r.result == CheckMutexError && r.deadline.None?
    // otherwise the deadline is now plus `timeout` seconds, nanoseconds kept
    ensures answer.clock.Some? ==>
              && r.deadline.Some?
              && r.deadline.value.sec - answer.clock.value.sec == timeout
              && r.deadline.value.nsec == answer.clock.value.nsec
    ensures r.deadline == DeadlineOf(answer, timeout)
    // the probe never leaves a lock held, and with a real mutex changes nothing
    ensures r.held <= held
    ensures Plausible(held, id, answer) ==> r.held == held
  {
    match answer.clock
    case None => ProbeReport(CheckMutexError, None, held)
    case Some(now) =>
      var deadline := Timespec(now.sec + timeout, now.nsec);
      if answer.lockRet == 0 then
        ProbeReport(CheckMutexAcquired, Some(deadline), Release(Acquire(held, id), id))
      else if answer.lockRet == ETIMEDOUT then
        ProbeReport(CheckMutexTimedOut, Some(deadline), held)
      else
        ProbeReport(CheckMutexError, Some(deadline), held)
  }

  /** The answer an ideal mutex gives to a probe taken at `now`: it is obtained
      when free and the deadline elapses when some other thread holds it. */
  function IdealAnswer(held: Held, id: LockId, now: Timespec): ProbeAnswer
  {
    ProbeAnswer(Some(now), if id in held then ETIMEDOUT else 0)
  }

  /** Against an ideal mutex the probe reports a free lock as obtained and
      leaves it free, and reports a held lock as timed out, without
      disturbing either; probing again gives the same answer. */
  lemma IdealProbe(held: Held, id: LockId, timeout: int, now: Timespec)
    ensures var r := CheckMutex(held, id, timeout, IdealAnswer(held, id, now));
      && (r.result == CheckMutexAcquired <==> id !in held)
      && (r.result == CheckMutexTimedOut <==> id in held)
      && r.held == held
      && CheckMutex(r.held, id, timeout, IdealAnswer(r.held, id, now)) == r
  {
  }
}
