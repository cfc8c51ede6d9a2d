/** Message dialogs on Linux: the dialog is shown by running `zenity`, or
    `kdialog` when zenity cannot be started. Running a program is not
    modelled: what it reports (whether it started, its exit code and its
    standard output, already decoded to text) is an input. */
module LinuxDialog {
  import opened Wrappers
  import opened Text
  import opened Dialogs

  /** What running a dialog program reports. A missing exit code means the
      program was ended by a signal. */
  datatype ProcessOutcome =
    | LaunchFailed
    | Exited(code: Option<int>, stdout: string)

  predicate Succeeded(outcome: ProcessOutcome)
  {
    outcome.Exited? && outcome.code == Some(0)
  }

  /** `build_message`: the message and the detail separated by a blank line;
      the detail alone when the message is empty; the message alone when
      there is no detail. */
  function BuildMessage(options: DialogOptions): (r: string)
    ensures options.detail.Some? ==> EndsWith(r, options.detail.value)
    ensures options.message != [] || options.detail.None? ==> StartsWith(r, options.message)
    ensures options.detail.None? ==> r == options.message
    ensures options.detail.Some? && options.message == [] ==> r == options.detail.value
    ensures options.detail.Some? && options.message != [] ==>
      |r| == |options.message| + 2 + |options.detail.value| && r[|options.message|..|options.message| + 2] == "\n\n"
  {
    match options.detail
    case Some(detail) =>
      if options.message != [] then options.message + "\n\n" + detail else detail
    case None => options.message
  }

  predicate EndsWith(s: string, suffix: string)
  {
    |suffix| <= |s| && s[|s| - |suffix|..] == suffix
  }

  // ---------------------------------------------------------------------
  // zenity

  /** The zenity dialog type for a single-button dialog. */
  function ZenityKindFlag(kind: DialogKind): string
  {
    match kind
    case Error => "--error"
    case Warning => "--warning"
    case Info => "--info"
  }

  /** The argument list handed to zenity. One button or none: a plain
      message box of the dialog's kind. Two or more: a question whose OK and
      Cancel labels are the first two buttons, then one `--extra-button`
      per further button, in order. */
  method ZenityArguments(options: DialogOptions) returns (args: seq<string>)
    ensures var message := BuildMessage(options);
      |options.buttons| <= 1 ==>
        args == [ZenityKindFlag(options.kind), "--title", options.title, "--text", message]
    ensures var message := BuildMessage(options);
      var buttons := options.buttons;
      |buttons| >= 2 ==>
        && |args| == 9 + 2 * (|buttons| - 2)
        && args[..9] == ["--question", "--title", options.title, "--text", message,
                         "--ok-label", buttons[0], "--cancel-label", buttons[1]]
        && forall k :: 2 <= k < |buttons| ==>
             args[2 * k + 5] == "--extra-button" && args[2 * k + 6] == buttons[k]
  {
    var message := BuildMessage(options);
    var buttons := options.buttons;
    if |buttons| <= 1 {
      return [ZenityKindFlag(options.kind), "--title", options.title, "--text", message];
    }
    args := ["--question", "--title", options.title, "--text", message];
    args := args + ["--ok-label", buttons[0]];
    args := args + ["--cancel-label", buttons[1]];
    var i := 2;
    while i < |buttons|
      invariant 2 <= i <= |buttons|
      invariant |args| == 9 + 2 * (i - 2)
      invariant args[..9] == ["--question", "--title", options.title, "--text", message,
                              "--ok-label", buttons[0], "--cancel-label", buttons[1]]
      invariant forall k :: 2 <= k < i ==>
                  args[2 * k + 5] == "--extra-button" && args[2 * k + 6] == buttons[k]
    {
      args := args + ["--extra-button", buttons[i]];
      i := i + 1;
    }
  }

  /** The first index from `from` on whose button label is `wanted`. */
  function MatchingButtonFrom(buttons: seq<string>, wanted: string, from: nat): (r: Option<nat>)
    ensures r.Some? ==>
      && from <= r.value < |buttons| && buttons[r.value] == wanted
      && forall j :: from <= j < r.value ==> buttons[j] != wanted
    ensures r.None? ==> forall j :: from <= j < |buttons| ==> buttons[j] != wanted
    decreases |buttons| - from
  {
    if from >= |buttons| then None
    else if buttons[from] == wanted then Some(from)
    else MatchingButtonFrom(buttons, wanted, from + 1)
  }

  /** The index zenity's question dialog reports: 0 when it exits with
      success; otherwise the first extra button (index 2 on) whose label is
      the trimmed output; otherwise 1. */
  function ZenityChoice(buttons: seq<string>, success: bool, stdout: string): nat
  {
    if success then 0
    else if |buttons| > 2 then
      match MatchingButtonFrom(buttons, Trim(stdout), 2)
      case Some(i) => i
      case None => 1
    else 1
  }

  /** The choice is always the index of one of at least two buttons; an
      index of 2 or more names the first extra button labelled like the
      trimmed output, and 1 means no extra button is. */
  lemma ZenityChoiceMeaning(buttons: seq<string>, success: bool, stdout: string)
    requires |buttons| >= 2
    ensures var r := ZenityChoice(buttons, success, stdout);
      && r < |buttons|
      && (success <==> r == 0)
      && (r >= 2 ==> buttons[r] == Trim(stdout) && forall j :: 2 <= j < r ==> buttons[j] != Trim(stdout))
      && (r == 1 <==> !success && forall j :: 2 <= j < |buttons| ==> buttons[j] != Trim(stdout))
  {
    if !success && |buttons| > 2 {
      var m := MatchingButtonFrom(buttons, Trim(stdout), 2);
    }
  }

  /** The search over the extra buttons, returning at the first match. */
  method ZenityResult(buttons: seq<string>, success: bool, stdout: string) returns (idx: nat)
    ensures idx == ZenityChoice(buttons, success, stdout)
  {
    if success {
      return 0;
    }
    if |buttons| > 2 {
      var trimmed := Trim(stdout);
      var i := 2;
      while i < |buttons|
        invariant 2 <= i <= |buttons|
        invariant MatchingButtonFrom(buttons, trimmed, 2) == MatchingButtonFrom(buttons, trimmed, i)
      {
        if trimmed == buttons[i] {
          return i;
        }
        i := i + 1;
      }
    }
    return 1;
  }

  /** `try_zenity`: no answer when zenity cannot be started; 0 for a plain
      message box; the question's choice otherwise. */
  function TryZenity(options: DialogOptions, outcome: ProcessOutcome): (r: Option<nat>)
    ensures r.Some? <==> outcome.Exited?
    ensures r.Some? && |options.buttons| <= 1 ==> r.value == 0
    ensures r.Some? && |options.buttons| >= 2 ==> r.value < |options.buttons|
  {
    match outcome
    case LaunchFailed => None
    case Exited(_, stdout) =>
      if |options.buttons| <= 1 then Some(0)
      else
        ZenityChoiceMeaning(options.buttons, Succeeded(outcome), stdout);
        Some(ZenityChoice(options.buttons, Succeeded(outcome), stdout))
  }

  // ---------------------------------------------------------------------
  // kdialog

  /** The kdialog dialog type for a single-button dialog. */
  function KdialogKindFlag(kind: DialogKind): string
  {
    match kind
    case Error => "--error"
    case Warning => "--sorry"
    case Info => "--msgbox"
  }

  /** The argument list handed to kdialog. One button or none: a plain
      message box of the dialog's kind. Two or more: a yes/no warning, with
      a cancel button from the third button on, labelled by the first
      three buttons. */
  method KdialogArguments(options: DialogOptions) returns (args: seq<string>)
    ensures var message := BuildMessage(options);
      |options.buttons| <= 1 ==>
        args == [KdialogKindFlag(options.kind), message, "--title", options.title]
    ensures var message := BuildMessage(options);
      var buttons := options.buttons;
      |buttons| >= 2 ==>
        && |args| == (if |buttons| >= 3 then 10 else 8)
        && args[0] == (if |buttons| >= 3 then "--warningyesnocancel" else "--warningyesno")
        && args[1..8] == [message, "--title", options.title, "--yes-label", buttons[0], "--no-label", buttons[1]]
        && (|buttons| >= 3 ==> args[8..] == ["--cancel-label", buttons[2]])
  {
    var message := BuildMessage(options);
    var buttons := options.buttons;
    if |buttons| <= 1 {
      return [KdialogKindFlag(options.kind), message, "--title", options.title];
    }
    args := ["--warningyesno", message];
    if |buttons| >= 3 {
      args := args[0 := "--warningyesnocancel"];
    }
    args := args + ["--title"];
    args := args + [options.title];
    if |buttons| >= 1 {
      args := args + ["--yes-label"];
      args := args + [buttons[0]];
    }
    if |buttons| >= 2 {
      args := args + ["--no-label"];
      args := args + [buttons[1]];
    }
    assert |args| == 8;
    assert args[1..8] == [message, "--title", options.title, "--yes-label", buttons[0], "--no-label", buttons[1]];
    if |buttons| >= 3 {
      args := args + ["--cancel-label"];
      args := args + [buttons[2]];
    }
  }

  /** kdialog's exit code as a button index: 0, 1 and 2 are kept (yes, no,
      cancel); any other code, or none, is 0. */
  function KdialogChoice(code: Option<int>): (r: nat)
    ensures r <= 2
    ensures code.Some? && 0 <= code.value <= 2 ==> r == code.value
    ensures !(code.Some? && 0 <= code.value <= 2) ==> r == 0
  {
    match code
    case Some(0) => 0
    case Some(1) => 1
    case Some(2) => 2
    case _ => 0
  }

  /** `try_kdialog`: no answer when kdialog cannot be started; 0 for a plain
      message box; the exit code's index otherwise. */
  function TryKdialog(options: DialogOptions, outcome: ProcessOutcome): (r: Option<nat>)
    ensures r.Some? <==> outcome.Exited?
    ensures r.Some? && |options.buttons| <= 1 ==> r.value == 0
    ensures r.Some? && |options.buttons| >= 3 ==> r.value < |options.buttons|
  {
    match outcome
    case LaunchFailed => None
    case Exited(code, _) =>
      if |options.buttons| <= 1 then Some(0) else Some(KdialogChoice(code))
  }

  /** With exactly two buttons, kdialog's cancel code 2 is passed on
      unchanged, one past the last button. */
  lemma KdialogCancelWithTwoButtons(options: DialogOptions, stdout: string)
    requires |options.buttons| == 2
    ensures TryKdialog(options, Exited(Some(2), stdout)) == Some(|options.buttons|)
  {
  }

  // ---------------------------------------------------------------------
  // show_dialog

  /** `show_dialog`: zenity's answer when zenity starts, else kdialog's
      when kdialog starts, else 0. kdialog runs only when zenity could not
      be started. */
  function ShowDialog(options: DialogOptions, zenity: ProcessOutcome, kdialog: ProcessOutcome): (index: nat)
    ensures |options.buttons| <= 1 ==> index == 0
    ensures |options.buttons| >= 3 ==> index < |options.buttons|
    ensures zenity.Exited? && |options.buttons| >= 2 ==> index < |options.buttons|
  {
    match TryZenity(options, zenity)
    case Some(idx) => idx
    case None =>
      match TryKdialog(options, kdialog)
      case Some(idx) => idx
      case None => 0
  }

  /** The fallback order, and the range of the answer: 0 for one button or
      none, and an index of a button when there are three or more. */
  lemma ShowDialogAnswer(options: DialogOptions, zenity: ProcessOutcome, kdialog: ProcessOutcome)
    ensures zenity.Exited? ==> ShowDialog(options, zenity, kdialog) == TryZenity(options, zenity).value
    ensures zenity.LaunchFailed? && kdialog.Exited? ==>
      ShowDialog(options, zenity, kdialog) == TryKdialog(options, kdialog).value
    ensures zenity.LaunchFailed? && kdialog.LaunchFailed? ==> ShowDialog(options, zenity, kdialog) == 0
    ensures |options.buttons| <= 1 ==> ShowDialog(options, zenity, kdialog) == 0
    ensures |options.buttons| >= 3 ==> ShowDialog(options, zenity, kdialog) < |options.buttons|
  {
  }
}
