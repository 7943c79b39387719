/** The version in `xivo-res-freeze-check/res_freeze_check.c`: no watchdog thread, only an on-demand check
    of the global channels container lock, reported through the
    `CheckFreeze` manager action and `freeze check`, plus the gated channel
    lock commands. `ast_channels_check_lock` is a host function: its answer
    for each timeout is an input. */
module XivoFreezeCheck {

  import opened Basics
  import opened Gate
  import opened Ami

  /** The timeout, in seconds, of the on-demand check. */
  const CheckTimeoutSecs: int := 10

  /** `check_locks`, given the answers of `ast_channels_check_lock`. */
  function CheckLocks(channelsCheckLock: int -> int): (r: int)
    ensures r == 0 || r == -1
    // fails exactly when the host's check of the channels lock, with a 10 s timeout, fails
    ensures r == -1 <==> channelsCheckLock(CheckTimeoutSecs) != 0
  {
    if channelsCheckLock(CheckTimeoutSecs) != 0 then -1 else 0
  }

  /** The `CheckFreeze` action for a request whose `ActionID` header is
      `actionId` (empty when absent). */
  function CheckFreezeAction(channelsCheckLock: int -> int, actionId: string): (r: ActionReply)
    // the handler succeeds whatever the check found
    ensures r.ret == AmiSuccess
    // the reply reads back as the check outcome and the echoed identifier
    ensures Parse(r.text) == Some(Response(channelsCheckLock(CheckTimeoutSecs) == 0, actionId))
    ensures r.text[..|FailLine|] == FailLine <==> CheckLocks(channelsCheckLock) == -1
    // an ActionID line follows exactly when the request carried an identifier
    ensures actionId == "" <==> r.text == SuccessLine || r.text == FailLine
  {
    var success := CheckLocks(channelsCheckLock) == 0;
    ParseRender(success, actionId);
    // the two Response lines differ at their eleventh character
    assert success ==> Render(success, actionId)[..|FailLine|][10] == 'S' != FailLine[10];
    ActionReply(Render(success, actionId), AmiSuccess)
  }

  const DeadlockedNotice := "Asterisk is most likely DEADLOCKED\n"
  const FineNotice := "Asterisk seems to be fine\n"

  /** The reply to `freeze check`: CLI result and text. */
  datatype CheckReply = CheckReply(result: CliResult, out: string)

  /** `freeze check`: report the on-demand check, never escalate. */
  function CliCheck(channelsCheckLock: int -> int): (r: CheckReply)
    ensures r.result == CliSuccess
    ensures r.out == DeadlockedNotice <==> CheckLocks(channelsCheckLock) != 0
    ensures r.out == FineNotice <==> CheckLocks(channelsCheckLock) == 0
  {
    if CheckLocks(channelsCheckLock) != 0 then CheckReply(CliSuccess, DeadlockedNotice)
    else CheckReply(CliSuccess, FineNotice)
  }

  /** The two reports of the on-demand check agree: `freeze check` says
      DEADLOCKED exactly when the `CheckFreeze` reply reads back as a
      failure, whatever the request's identifier. */
  lemma CheckReportsAgree(channelsCheckLock: int -> int, actionId: string)
    ensures Parse(CheckFreezeAction(channelsCheckLock, actionId).text).Some?
    ensures CliCheck(channelsCheckLock).out == DeadlockedNotice
        <==> !Parse(CheckFreezeAction(channelsCheckLock, actionId).text).value.success
  {
  }

  /** The dangerous-commands flag and whether the channels container lock is held. */
  datatype XivoState = XivoState(dangerous: bool, channelHeld: bool)

  /** A command's CLI result, the state after it, the text and the warnings logged. */
  datatype XivoReply = XivoReply(result: CliResult, state: XivoState, out: string, warnings: seq<string>)

  /** `freeze enable|disable`. */
  function CliEnable(s: XivoState, what: string): (r: XivoReply)
    ensures EqualsIgnoreCase(what, "enable") ==> r.result == CliSuccess && r.state.dangerous
    ensures EqualsIgnoreCase(what, "disable") ==> r.result == CliSuccess && !r.state.dangerous
    ensures !EqualsIgnoreCase(what, "enable") && !EqualsIgnoreCase(what, "disable") ==>
              r.result == CliShowUsage && r.state == s
    ensures r.state.channelHeld == s.channelHeld && r.warnings == []
  {
    var t := Toggle(s.dangerous, what);
    XivoReply(t.result, XivoState(t.enabled, s.channelHeld), t.out, [])
  }

  /** `freeze channel lock|unlock`: the gate is checked before the word. */
  function CliChannel(s: XivoState, what: string): (r: XivoReply)
    ensures !s.dangerous ==> r == XivoReply(CliFailure, s, RefusedNotice, [])
    ensures s.dangerous && EqualsIgnoreCase(what, "lock") ==> r.result == CliSuccess && r.state.channelHeld
    ensures s.dangerous && EqualsIgnoreCase(what, "unlock") ==> r.result == CliSuccess && !r.state.channelHeld
    ensures s.dangerous && !EqualsIgnoreCase(what, "lock") && !EqualsIgnoreCase(what, "unlock") ==>
              r.result == CliShowUsage && r.state == s
    ensures r.result != CliSuccess ==> r.state == s
    ensures r.state.dangerous == s.dangerous
  {
    var c := ChannelCommand(s.dangerous, s.channelHeld, what);
    XivoReply(c.result, XivoState(s.dangerous, c.channelHeld), c.out, c.warnings)
  }

  /** The state when the module is loaded: the dangerous commands are off. */
  function AtLoad(channelHeld: bool): XivoState
  {
    XivoState(DangerousAtLoad, channelHeld)
  }

  /** A run of `freeze enable|disable` or `freeze channel lock|unlock`. */
  datatype Command = EnableCmd(what: string) | ChannelCmd(what: string)

  /** A successful `freeze enable`. */
  predicate Enables(c: Command)
  {
    c.EnableCmd? && EqualsIgnoreCase(c.what, "enable")
  }

  function Exec(s: XivoState, c: Command): XivoReply
  {
    match c
    case EnableCmd(what) => CliEnable(s, what)
    case ChannelCmd(what) => CliChannel(s, what)
  }

  /** The replies to a sequence of commands, each run in the state the
      previous one left. */
  function Replay(s: XivoState, cmds: seq<Command>): (rs: seq<XivoReply>)
    decreases |cmds|
    ensures |rs| == |cmds|
  {
    if |cmds| == 0 then []
    else
      var r := Exec(s, cmds[0]);
      [r] + Replay(r.state, cmds[1..])
  }

  /** From load, every `freeze channel` command is refused and nothing
      changes until the first successful `freeze enable` (position `k`, or
      the end). */
  lemma {:induction false} LockedOutAtLoad(channelHeld: bool, cmds: seq<Command>, k: nat)
    requires k <= |cmds|
    requires forall i :: 0 <= i < k ==> !Enables(cmds[i])
    ensures !AtLoad(channelHeld).dangerous
    ensures var rs := Replay(AtLoad(channelHeld), cmds);
      forall i :: 0 <= i < k ==>
        && rs[i].state == AtLoad(channelHeld)
        && (cmds[i].ChannelCmd? ==> rs[i].result == CliFailure)
  {
    if k > 0 {
      var s := AtLoad(channelHeld);
      var rs := Replay(s, cmds);
      var r := Exec(s, cmds[0]);
      assert !Enables(cmds[0]);
      assert r.state == s;
      LockedOutAtLoad(channelHeld, cmds[1..], k - 1);
      var rest := Replay(s, cmds[1..]);
      assert rs == [r] + rest;
      forall i | 0 < i < k
        ensures rs[i].state == s && (cmds[i].ChannelCmd? ==> rs[i].result == CliFailure)
      {
        assert rs[i] == rest[i - 1] && cmds[1..][i - 1] == cmds[i];
      }
    }
  }
}
