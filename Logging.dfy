/**
 * The logging rules of serial2amqp.c: `debug_print` always sends a message to
 * syslog, at a priority derived from its level, and echoes it to stderr only
 * when the level is within the configured verbosity and the process has not
 * daemonized; `bomb` reports a fatal error and exits.
 */
module Logging {
  import opened Util
  import opened CStrings

  const LogNotice: int := 5
  const LogDebug: int := 7
  /** `char fmsg[255]`, the buffer both helpers format into. */
  const FormatBufferSize: nat := 255

  /** The syslog priority of a debug message: its level plus 4, never above LOG_DEBUG. */
  function SyslogLevel(msgLvl: int): (p: int)
    ensures p <= LogDebug
    ensures msgLvl + 4 <= LogDebug ==> p == msgLvl + 4
    ensures msgLvl + 4 >= LogDebug ==> p == LogDebug
  {
    var lvl := msgLvl + 4;
    if lvl > 7 then 7 else lvl
  }

  /** What one `debug_print` call emits. */
  datatype LogAction = LogAction(syslogLevel: int, syslogText: string, stderrText: Option<string>)

  function DebugPrint(msgLvl: int, msg: string, debugLevel: int, daemonized: bool): (a: LogAction)
    ensures a.syslogLevel == SyslogLevel(msgLvl) && a.syslogText == msg
    ensures a.stderrText.Some? <==> msgLvl <= debugLevel && !daemonized
    ensures a.stderrText.Some? ==>
      a.stderrText.value == Copied("DEBUG" + IntToString(msgLvl) + ": " + msg, FormatBufferSize) + "\n"
  {
    var action := LogAction(SyslogLevel(msgLvl), msg, None);
    if msgLvl > debugLevel then action
    else if daemonized then action
    else
      var fmsg := Copied("DEBUG" + IntToString(msgLvl) + ": " + msg, FormatBufferSize);
      action.(stderrText := Some(fmsg + "\n"))
  }

  /** Under `-q` (level -1) no message of level 0 or more reaches stderr, while syslog still gets it. */
  lemma QuietSilencesStderr(msgLvl: int, msg: string, daemonized: bool)
    requires msgLvl >= 0
    ensures DebugPrint(msgLvl, msg, -1, daemonized).stderrText == None
    ensures DebugPrint(msgLvl, msg, -1, daemonized).syslogText == msg
  {
  }

  /** The echoed line is at most 254 characters of text and a newline. */
  lemma EchoFitsFormatBuffer(msgLvl: int, msg: string, debugLevel: int, daemonized: bool)
    ensures var a := DebugPrint(msgLvl, msg, debugLevel, daemonized);
            a.stderrText.Some? ==> |a.stderrText.value| <= FormatBufferSize
  {
  }

  /** What `bomb` emits before it exits. */
  datatype Fatal = Fatal(stderrText: Option<string>, syslogLevel: int, syslogText: string, exitCode: int)

  function Bomb(ecode: int, msg: string, daemonized: bool): (f: Fatal)
    ensures f.exitCode == ecode && f.syslogLevel == LogNotice
    ensures f.stderrText.Some? <==> !daemonized
    ensures f.stderrText.Some? ==> f.stderrText.value == f.syslogText + "\n"
    ensures f.syslogText == Copied("ERROR: " + msg, FormatBufferSize)
  {
    var fmsg := Copied("ERROR: " + msg, FormatBufferSize);
    Fatal(if daemonized then None else Some(fmsg + "\n"), LogNotice, fmsg, ecode)
  }
}
