/** Power-save blockers on Linux. Keeping the screen awake asks the
    desktop's screen saver over D-Bus (`dbus-send`), which answers with a
    `uint32` cookie; keeping the system awake runs `systemd-inhibit` as a
    child process. Running programs is not modelled: whether a program
    started, its exit status and its standard output (as text, or none when
    it is not valid UTF-8) are inputs. */
module LinuxPower {
  import opened Wrappers
  import opened Text

  /** What running `dbus-send` reports. */
  datatype CommandOutput =
    | LaunchFailed
    | Finished(success: bool, stdout: Option<string>)

  /** The handle the caller keeps to release the blocker later. */
  datatype PowerSaveHandle =
    | ScreenSaverCookie(cookie: u32)
    | ChildProcess(pid: nat)

  const UINT32_PREFIX: string := "uint32"

  /** A line that, trimmed, starts with `uint32`. */
  predicate HasPrefixLine(line: string)
  {
    StartsWith(Trim(line), UINT32_PREFIX)
  }

  /** The value such a line carries: what follows the prefix, trimmed,
      parsed as a `u32`. */
  function PrefixLineValue(line: string): Option<u32>
    requires HasPrefixLine(line)
  {
    ParseU32(Trim(Trim(line)[|UINT32_PREFIX|..]))
  }

  /** The value of a reply given as lines: the first line with the prefix
      decides. */
  function Uint32FromLines(lines: seq<string>): Option<u32>
  {
    if lines == [] then None
    else if HasPrefixLine(lines[0]) then PrefixLineValue(lines[0])
    else Uint32FromLines(lines[1..])
  }

  /** The value of a reply: none when the output is not valid UTF-8. */
  function DbusUint32(stdout: Option<string>): Option<u32>
  {
    match stdout
    case None => None
    case Some(text) => Uint32FromLines(Lines(text))
  }

  /** `parse_dbus_uint32`: the loop over the lines, returning at the first
      line with the prefix. */
  method ParseDbusUint32(stdout: Option<string>) returns (r: Option<u32>)
    ensures r == DbusUint32(stdout)
  {
    if stdout.None? {
      return None;
    }
    var lines := Lines(stdout.value);
    var i := 0;
    while i < |lines|
      invariant 0 <= i <= |lines|
      invariant Uint32FromLines(lines) == Uint32FromLines(lines[i..])
    {
      assert lines[i..][1..] == lines[i + 1..];
      var trimmed := Trim(lines[i]);
      if StartsWith(trimmed, UINT32_PREFIX) {
        return ParseU32(Trim(trimmed[|UINT32_PREFIX|..]));
      }
      i := i + 1;
    }
    return None;
  }

  /** A first line without the prefix is skipped. */
  lemma SkipLine(lines: seq<string>)
    requires lines != [] && !HasPrefixLine(lines[0])
    ensures Uint32FromLines(lines) == Uint32FromLines(lines[1..])
  {
  }

  /** A first line with the prefix decides. */
  lemma HitLine(lines: seq<string>)
    requires lines != [] && HasPrefixLine(lines[0])
    ensures Uint32FromLines(lines) == PrefixLineValue(lines[0])
  {
  }

  /** Only the first line with the prefix counts: whatever comes after it
      is never read. */
  lemma {:induction false} PrefixLineDecides(lines: seq<string>, later: seq<string>, k: nat)
    requires k < |lines| && HasPrefixLine(lines[k])
    ensures Uint32FromLines(lines + later) == Uint32FromLines(lines)
  {
    var all := lines + later;
    assert all[0] == lines[0];
    if HasPrefixLine(lines[0]) {
      HitLine(all);
      HitLine(lines);
    } else {
      assert all[1..] == lines[1..] + later;
      assert lines[1..][k - 1] == lines[k];
      PrefixLineDecides(lines[1..], later, k - 1);
      SkipLine(all);
      SkipLine(lines);
    }
  }

  /** Lines without the prefix are skipped, and give no value by
      themselves. */
  lemma {:induction false} NoPrefixLineSkipped(lines: seq<string>, later: seq<string>)
    requires forall k :: 0 <= k < |lines| ==> !HasPrefixLine(lines[k])
    ensures Uint32FromLines(lines + later) == Uint32FromLines(later)
    ensures Uint32FromLines(lines) == None
  {
    if lines == [] {
      assert lines + later == later;
    } else {
      assert (lines + later)[0] == lines[0];
      assert (lines + later)[1..] == lines[1..] + later;
      assert forall k :: 1 <= k < |lines| ==> lines[k] == lines[1..][k - 1];
      NoPrefixLineSkipped(lines[1..], later);
    }
  }

  /** The reply `dbus-send --print-reply` prints for a method returning a
      `uint32`: a header line, then the indented value. */
  function Reply(header: string, cookie: u32): string
  {
    header + "\n   uint32 " + DecimalString(cookie) + "\n"
  }

  /** The indented value line of a reply. */
  function ValueLine(cookie: u32): string
  {
    "   uint32 " + DecimalString(cookie)
  }

  /** The prefixed digits neither start nor end with white space. */
  lemma PrefixedDigitsUnpadded(cookie: u32)
    ensures var value := "uint32 " + DecimalString(cookie);
      value != [] && !IsWhitespace(value[0]) && !IsWhitespace(value[|value| - 1])
  {
    var digits := DecimalString(cookie);
    DecimalStringValue(cookie);
    var value := "uint32 " + digits;
    assert value[0] == 'u';
    assert value[|value| - 1] == digits[|digits| - 1];
  }

  /** Trimming the value line leaves the prefix, a space and the digits. */
  lemma TrimValueLine(cookie: u32)
    ensures Trim(ValueLine(cookie)) == "uint32 " + DecimalString(cookie)
  {
    var value := "uint32 " + DecimalString(cookie);
    var pad := "   ";
    assert ValueLine(cookie) == pad + value;
    assert forall i :: 0 <= i < |pad| ==> IsWhitespace(pad[i]);
    PrefixedDigitsUnpadded(cookie);
    TrimAfterPadding(pad, value);
  }

  /** What follows the prefix, trimmed, is the digits. */
  lemma TrimAfterPrefix(cookie: u32)
    ensures Trim(("uint32 " + DecimalString(cookie))[|UINT32_PREFIX|..]) == DecimalString(cookie)
  {
    var digits := DecimalString(cookie);
    DecimalStringValue(cookie);
    var rest := " " + digits;
    assert "uint32 " + digits == UINT32_PREFIX + rest;
    assert (UINT32_PREFIX + rest)[|UINT32_PREFIX|..] == rest;
    TrimAfterPadding(" ", digits);
  }

  /** The value line has the prefix and its value is the cookie. */
  lemma ValueLineParses(cookie: u32)
    ensures HasPrefixLine(ValueLine(cookie))
    ensures PrefixLineValue(ValueLine(cookie)) == Some(cookie)
  {
    TrimValueLine(cookie);
    TrimAfterPrefix(cookie);
    ParseDecimalRoundTrip(cookie);
    assert ("uint32 " + DecimalString(cookie))[..6] == UINT32_PREFIX;
  }

  /** A reply splits into its header line and its value line. */
  lemma ReplyLines(header: string, cookie: u32)
    requires '\n' !in header
    ensures Lines(Reply(header, cookie)) == [StripCr(header), ValueLine(cookie)]
  {
    var digits := DecimalString(cookie);
    DecimalStringValue(cookie);
    var line := ValueLine(cookie);
    assert '\n' !in line by {
      assert forall i :: 10 <= i < |line| ==> line[i] == digits[i - 10];
    }
    assert Reply(header, cookie) == header + "\n" + (line + "\n" + "");
    LinesCons(header, line + "\n" + "");
    LinesCons(line, "");
    assert line[|line| - 1] == digits[|digits| - 1];
    assert StripCr(line) == line;
  }

  /** Parsing such a reply gives the cookie back. */
  lemma ReplyRoundTrip(header: string, cookie: u32)
    requires '\n' !in header && !HasPrefixLine(StripCr(header))
    ensures DbusUint32(Some(Reply(header, cookie))) == Some(cookie)
  {
    ReplyLines(header, cookie);
    ValueLineParses(cookie);
    var lines := [StripCr(header), ValueLine(cookie)];
    assert lines[1..] == [ValueLine(cookie)];
    assert Uint32FromLines(lines) == Uint32FromLines([ValueLine(cookie)]);
  }

  /** The arguments of the `Inhibit` call: the reply is printed, since it
      carries the cookie, and the application name and the reason travel as
      the call's two string arguments, last. */
  function InhibitArguments(appName: string, reason: string): (args: seq<string>)
    ensures "--print-reply" in args
    ensures |args| >= 2 && args[|args| - 2..] == ["string:" + appName, "string:" + reason]
  {
    ["--session", "--dest=org.freedesktop.ScreenSaver", "--type=method_call", "--print-reply",
     "/org/freedesktop/ScreenSaver", "org.freedesktop.ScreenSaver.Inhibit",
     "string:" + appName, "string:" + reason]
  }

  /** `inhibit_screensaver`: a cookie only when `dbus-send` started, exited
      with success and printed a `uint32` value. */
  function InhibitScreensaver(output: CommandOutput): (r: Option<PowerSaveHandle>)
    ensures r.Some? <==> output.Finished? && output.success && DbusUint32(output.stdout).Some?
    ensures r.Some? ==> r.value == ScreenSaverCookie(DbusUint32(output.stdout).value)
  {
    match output
    case LaunchFailed => None
    case Finished(success, stdout) =>
      if !success then None
      else
        match DbusUint32(stdout)
        case Some(cookie) => Some(ScreenSaverCookie(cookie))
        case None => None
  }

  /** The arguments of the `UnInhibit` call for a cookie. */
  function UninhibitArguments(cookie: u32): (args: seq<string>)
    ensures |args| == 6 && StartsWith(args[5], "uint32:")
  {
    ["--session", "--dest=org.freedesktop.ScreenSaver", "--type=method_call",
     "/org/freedesktop/ScreenSaver", "org.freedesktop.ScreenSaver.UnInhibit",
     "uint32:" + DecimalString(cookie)]
  }

  /** `Inhibit` and `UnInhibit` go to the same session bus service, object
      and interface; only `Inhibit` waits for a reply. */
  lemma InhibitPairsWithUninhibit(appName: string, reason: string, cookie: u32)
    ensures var inhibit := InhibitArguments(appName, reason);
      var uninhibit := UninhibitArguments(cookie);
      && inhibit[0] == uninhibit[0] && inhibit[1] == uninhibit[1] && inhibit[2] == uninhibit[2]
      && inhibit[4] == uninhibit[3]
      && |inhibit[5]| > 28 && |uninhibit[4]| > 28
      && inhibit[5][..28] == uninhibit[4][..28] == "org.freedesktop.ScreenSaver."
      && inhibit[5] != uninhibit[4]
      && "--print-reply" !in uninhibit
  {
    var inhibit := InhibitArguments(appName, reason);
    var uninhibit := UninhibitArguments(cookie);
    assert inhibit[5][..28] == "org.freedesktop.ScreenSaver.";
    assert uninhibit[4][..28] == "org.freedesktop.ScreenSaver.";
    assert inhibit[5][28] != uninhibit[4][28];
    assert uninhibit[5][..7] == "uint32:";
    assert uninhibit[5][0] != "--print-reply"[0];
    assert forall i :: 0 <= i < 5 ==> uninhibit[i] != "--print-reply";
  }

  /** The cookie received from `Inhibit` is the one `UnInhibit` sends back. */
  lemma CookieRoundTrip(header: string, cookie: u32)
    requires '\n' !in header && !HasPrefixLine(StripCr(header))
    ensures var handle := InhibitScreensaver(Finished(true, Some(Reply(header, cookie))));
      && handle == Some(ScreenSaverCookie(cookie))
      && ParseU32(UninhibitArguments(handle.value.cookie)[5][7..]) == Some(cookie)
  {
    ReplyRoundTrip(header, cookie);
    var arg := UninhibitArguments(cookie)[5];
    assert arg[7..] == DecimalString(cookie);
    ParseDecimalRoundTrip(cookie);
  }

  /** The arguments of `systemd-inhibit`, which holds a sleep lock while
      its `sleep infinity` child runs. */
  function InhibitSuspendArguments(appName: string, reason: string): (args: seq<string>)
    ensures "--what=sleep" in args && "--who=" + appName in args && "--why=" + reason in args
    ensures |args| >= 2 && args[|args| - 2..] == ["sleep", "infinity"]
  {
    ["--what=sleep", "--who=" + appName, "--why=" + reason, "sleep", "infinity"]
  }

  /** `inhibit_suspend`: the child process when it could be spawned. */
  function InhibitSuspend(spawned: Option<nat>): (r: Option<PowerSaveHandle>)
    ensures r.Some? <==> spawned.Some?
    ensures r.Some? ==> r.value == ChildProcess(spawned.value)
  {
    match spawned
    case Some(pid) => Some(ChildProcess(pid))
    case None => None
  }

  /** What releasing a blocker does. */
  datatype Release =
    | RunDbusSend(args: seq<string>)
    | KillAndWait(pid: nat)

  /** `release_blocker`: a cookie is handed back with `UnInhibit`, a child
      process is killed and reaped. */
  function ReleaseBlocker(handle: PowerSaveHandle): (r: Release)
    ensures handle.ScreenSaverCookie? <==> r.RunDbusSend?
    ensures handle.ScreenSaverCookie? ==> r.args == UninhibitArguments(handle.cookie)
    ensures handle.ChildProcess? ==> r == KillAndWait(handle.pid)
  {
    match handle
    case ScreenSaverCookie(cookie) => RunDbusSend(UninhibitArguments(cookie))
    case ChildProcess(pid) => KillAndWait(pid)
  }
}
