/** The version in `res_freeze_check/res_freeze_check.c`: only the `CheckFreeze` manager action,
    which asks the host to retry the channel lock a computed number of
    times, and `freeze enable|disable` (which is `Gate.Toggle` on the flag
    alone, as this version has no lock commands; the flag starts as
    `Gate.DangerousAtLoad`).
    `ast_channel_check_lock` is a host function: its answer for each retry
    count and wait is an input. */
module LegacyFreezeCheck {

  import opened Basics
  import opened Ami

  /** Arithmetic on the C `unsigned int` the retry count is computed in. */
  const U32Modulus: nat := 0x1_0000_0000

  function U32Mul(a: nat, b: nat): nat
  {
    (a * b) % U32Modulus
  }

  /** The longest the check may take, 30 s in microseconds, and the wait per attempt. */
  const MaxWaitTimeUs: nat := U32Mul(30, 1000000)
  const WaitTimeUs: nat := 1000

  /** The number of attempts: the maximum wait divided by the wait per attempt. */
  function RetryCount(): (n: nat)
    // 32-bit arithmetic does not wrap here: the attempts cover exactly 30 seconds
    ensures n * WaitTimeUs == 30 * 1000000
    ensures n == 30000
  {
    MaxWaitTimeUs / WaitTimeUs
  }

  /** The `CheckFreeze` action for a request whose `ActionID` header is
      `actionId` (empty when absent), given the answers of `ast_channel_check_lock`. */
  function CheckFreezeAction(channelCheckLock: (int, int) -> int, actionId: string): (r: ActionReply)
    ensures r.ret == AmiSuccess
    // Success exactly when the host's check with 30000 tries of 1000 us returns 0
    ensures Parse(r.text) == Some(Response(channelCheckLock(30000, 1000) == 0, actionId))
    // an ActionID line follows exactly when the request carried an identifier
    ensures actionId == "" <==> r.text == SuccessLine || r.text == FailLine
  {
    var success := channelCheckLock(RetryCount(), WaitTimeUs) == 0;
    ParseRender(success, actionId);
    ActionReply(Render(success, actionId), AmiSuccess)
  }
}
