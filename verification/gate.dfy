/** The dangerous-command gate: the `freeze enable|disable` word parsing,
    shared by all three module versions, and the gated direct lock/unlock of
    the global channels container lock, shared by the main and the xivo
    versions (the legacy version has no lock commands). Words are compared
    as `strcasecmp` does. */
module Gate {

  import opened Basics

  /** Every version loads with the dangerous commands disabled. */
  const DangerousAtLoad: bool := false

  /** `CLI_SUCCESS`, `CLI_FAILURE` and `CLI_SHOWUSAGE`. */
  datatype CliResult = CliSuccess | CliFailure | CliShowUsage

  const EnabledNotice := "Dangerous freeze CLI commands enabled.\n"
  const DisabledNotice := "Dangerous freeze CLI commands disabled.\n"
  const RefusedNotice := "Dangerous freeze CLI commands are disabled.\n"

  /** A lock command prints a text on the CLI and logs one as a warning. Where
      the two read the same there is one constant; where the source writes
      them differently (the unlock texts) there is a `Notice` for the CLI and
      a `Warning` for the log. */
  const ChannelLocked := "The global channel container is now LOCKED\n"
  const ChannelUnlockedNotice := "The global channel contained is now UNLOCKED.\n"
  const ChannelUnlockedWarning := "The global channel container is now UNLOCKED\n"

  /** The reply to `freeze enable|disable`: the CLI result, the new value of
      the dangerous-commands flag, and the text printed on the CLI. */
  datatype Toggled = Toggled(result: CliResult, enabled: bool, out: string)

  /** Set the dangerous-commands flag from the command's last word. */
  function Toggle(enabled: bool, what: string): (t: Toggled)
    // "enable" and "disable", in any letter case, set the flag on or off
    ensures EqualsIgnoreCase(what, "enable") ==> t.result == CliSuccess && t.enabled && t.out == EnabledNotice
    ensures EqualsIgnoreCase(what, "disable") ==> t.result == CliSuccess && !t.enabled && t.out == DisabledNotice
    // anything else asks for the usage text and leaves the flag alone
    ensures t.result == CliShowUsage <==> !EqualsIgnoreCase(what, "enable") && !EqualsIgnoreCase(what, "disable")
    ensures t.result == CliShowUsage ==> t.enabled == enabled && t.out == ""
    ensures t.result != CliFailure
  {
    if EqualsIgnoreCase(what, "enable") then Toggled(CliSuccess, true, EnabledNotice)
    else if EqualsIgnoreCase(what, "disable") then Toggled(CliSuccess, false, DisabledNotice)
    else Toggled(CliShowUsage, enabled, "")
  }

  /** The new flag does not depend on the old one, so repeating a toggle
      changes nothing more. */
  lemma ToggleIsIdempotent(enabled: bool, what: string)
    ensures Toggle(Toggle(enabled, what).enabled, what) == Toggle(enabled, what)
    ensures Toggle(enabled, what).result == CliSuccess ==>
              Toggle(!enabled, what) == Toggle(enabled, what)
  {
    EqualsIgnoreCaseIsEquivalence(what, "enable", "disable");
  }

  /** Letter case does not matter: the upper-case and capitalised spellings
      act as the lower-case ones; a word with anything added does not. */
  lemma ToggleIgnoresCase(enabled: bool)
    ensures Toggle(enabled, "ENABLE").enabled && Toggle(enabled, "Enable").enabled
    ensures !Toggle(enabled, "DISABLE").enabled && !Toggle(enabled, "Disable").enabled
    ensures Toggle(enabled, "enabled").result == CliShowUsage
    ensures Toggle(enabled, "").result == CliShowUsage
  {
    assert EqualsIgnoreCase("ENABLE", "enable");
    assert EqualsIgnoreCase("Enable", "enable");
    assert EqualsIgnoreCase("DISABLE", "disable");
    assert EqualsIgnoreCase("Disable", "disable");
    // "enabled" is as long as "disable" and differs from it at the first letter
    assert Lower("enabled"[0]) != Lower("disable"[0]);
  }

  /** The reply to `freeze channel lock|unlock`: CLI result, whether the
      channels container lock is held afterwards, the CLI text and the
      warnings logged. */
  datatype ChannelReply = ChannelReply(result: CliResult, channelHeld: bool, out: string, warnings: seq<string>)

  /** Directly lock or unlock the global channels container lock, refused
      unless the dangerous commands are enabled. */
  function ChannelCommand(enabled: bool, channelHeld: bool, what: string): (r: ChannelReply)
    // the gate is checked before the word: any word is refused while disabled
    ensures !enabled ==> r == ChannelReply(CliFailure, channelHeld, RefusedNotice, [])
    ensures enabled && EqualsIgnoreCase(what, "lock") ==>
              r.result == CliSuccess && r.channelHeld && r.warnings == [ChannelLocked]
    ensures enabled && EqualsIgnoreCase(what, "unlock") ==>
              r.result == CliSuccess && !r.channelHeld && r.warnings == [ChannelUnlockedWarning]
    ensures enabled && !EqualsIgnoreCase(what, "lock") && !EqualsIgnoreCase(what, "unlock") ==>
              r == ChannelReply(CliShowUsage, channelHeld, "", [])
    // only a successful command changes the lock, and each success logs one warning
    ensures r.result != CliSuccess ==> r.channelHeld == channelHeld && r.warnings == []
    ensures r.result == CliSuccess ==> |r.warnings| == 1
  {
    if !enabled then ChannelReply(CliFailure, channelHeld, RefusedNotice, [])
    else if EqualsIgnoreCase(what, "lock") then
      ChannelReply(CliSuccess, true, ChannelLocked, [ChannelLocked])
    else if EqualsIgnoreCase(what, "unlock") then
      ChannelReply(CliSuccess, false, ChannelUnlockedNotice, [ChannelUnlockedWarning])
    else ChannelReply(CliShowUsage, channelHeld, "", [])
  }
}
