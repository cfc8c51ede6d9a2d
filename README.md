# Desktop platform services of adabraka-gpui, modelled in Dafny

This project models the platform services that the adabraka-gpui UI framework layers
over the operating system:

- **Global hotkeys.** There is one registry per platform:
  - Linux keeps a bookkeeping map. X11 adds passive key grabs, resolved through a
    keysym table and the keyboard-mapping reply. Wayland refuses.
  - Windows maps keys to virtual-key codes and registers them with `RegisterHotKey`.
  - macOS matches every key-down event against the stored bindings.
- **Single-instance lock.** A Unix domain socket (a named mutex on Windows) guards the
  app. A second launch connects to it and sends the `activate` sentinel.
- **Toast stack.** Toasts are pushed with a timer that later dismisses them.
- **Window positioner.** Computes centre, tray and corner placement.
- **Native dialogs.** zenity/kdialog argument lists and answer mapping on Linux.
  `MessageBoxW` flags, text and return codes on Windows.
- **Power-save blockers.**
  - Linux: the D-Bus `uint32` reply parser and the screensaver cookie.
  - Windows: execution-state flags, their combination, and idle time with
    wrap-around.
- **Linux OS information.** `/etc/os-release`, hostname, locale.
- **XDG autostart.** The desktop-file path, its content, and enable/disable/query.
- **Linux tray.** RGBA to ARGB icon conversion, menu conversion, and the lazily
  started service.
- **Test-support macros.** `path!`, `uri!`, `line_endings!`, and the arguments and
  attributes of `#[perf]`.

## How the model is organised

- One Dafny module per source file, in a file named after it. Examples:
  `linux_global_hotkey.dfy` for `platform/linux/global_hotkey.rs`, and
  `single_instance.dfy` for `platform/single_instance.rs`.
- Four shared modules:
  - `Wrappers`: `Option`, `Result`, fixed-width integers.
  - `Text`: the `str` operations the code relies on, with Rust's semantics. These are
    `to_lowercase`, `trim` over Unicode White_Space, `lines`, `replace`, `split`,
    `u32::from_str` and `{}` formatting.
  - `Paths`: `PathBuf::join`.
  - `Keystrokes`: the `Keystroke` record.
- Objects whose fields the source updates in place are classes with `modifies`
  clauses. The OS resources they act on are classes too:
  - the X server's grabs;
  - the Win32 hotkey table;
  - the socket-file namespace;
  - the named-mutex namespace;
  - the configuration file system.
- Loops in the source are methods with loop invariants, each proved equal to a
  specification function:
  - the keyboard-mapping scan;
  - the hotkey search;
  - the accept loop;
  - the D-Bus reply scan;
  - the `os-release` scan;
  - the zenity answer search and argument lists;
  - the ARGB conversion;
  - `#[perf]` argument parsing.
  The properties are then proved about those functions.
- Inputs stand in for what the code gets from the outside. Each of these is a
  parameter:
  - environment variables and file contents;
  - exit statuses and stdout of child processes;
  - the keyboard-mapping reply;
  - the NSEvent fields;
  - `MessageBoxW`'s return code;
  - `GetTickCount`;
  - the iteration order of a `HashMap`.

## Model

| member | source | states |
|---|---|---|
| LinuxHotkey.LinuxGlobalHotkey.constructor | crates/gpui/src/platform/linux/global_hotkey.rs:13-17 | a new registry holds no bindings |
| LinuxHotkey.LinuxGlobalHotkey.Register | crates/gpui/src/platform/linux/global_hotkey.rs:19-22 | always Ok; `id` now maps to the keystroke, replacing any earlier binding, every other id unchanged |
| LinuxHotkey.LinuxGlobalHotkey.Unregister | crates/gpui/src/platform/linux/global_hotkey.rs:24-26 | removes exactly `id`; an absent id leaves the map as it was |
| LinuxHotkey.KeystrokeToX11Modmask | crates/gpui/src/platform/linux/global_hotkey.rs:36-51 | CONTROL, M1, SHIFT and M4 are set exactly when control, alt, shift and platform are held; no other bit is ever set |
| LinuxHotkey.KeysymDefinedExactlyOnTable | crates/gpui/src/platform/linux/global_hotkey.rs:83-160 | a keysym exists iff the lower-cased name is one of the table's names; any other name gives None |
| LinuxHotkey.KeysymOnlyForTableNames | crates/gpui/src/platform/linux/global_hotkey.rs:158-159 | a name outside the table has no keysym |
| LinuxHotkey.GroupHasKeysyms | crates/gpui/src/platform/linux/global_hotkey.rs:84-157 | every letter, digit, editing key, function key and punctuation name of the table has a keysym |
| LinuxHotkey.KeysymCaseInsensitive | crates/gpui/src/platform/linux/global_hotkey.rs:84 | the lookup gives the same answer for a name and its lower-cased form |
| LinuxHotkey.KeysymOfLetterOrDigit | crates/gpui/src/platform/linux/global_hotkey.rs:85-120 | a letter (either case) or digit maps to the ASCII code of its lower-case form |
| LinuxHotkey.EnterIsReturn | crates/gpui/src/platform/linux/global_hotkey.rs:122 | "enter" and "return", in any case, both map to 0xff0d |
| LinuxHotkey.FirstRowFrom | crates/gpui/src/platform/linux/global_hotkey.rs:71-79 | the result is the first row at or after `row` holding the keysym, and no earlier row holds it; None when no row does |
| LinuxHotkey.X11Keycode | crates/gpui/src/platform/linux/global_hotkey.rs:53-81 | a resolved keycode always lies in [min_keycode, max_keycode] |
| LinuxHotkey.X11KeycodeIsFirstHolder | crates/gpui/src/platform/linux/global_hotkey.rs:53-81 | a resolved keycode is min_keycode plus the first row containing the key's keysym; None exactly when the name is unknown, the reply failed, or no row holds the keysym |
| LinuxHotkey.ScanRow | crates/gpui/src/platform/linux/global_hotkey.rs:73-77 | the inner loop finds the keysym iff one of the row's columns holds it |
| LinuxHotkey.KeystrokeToX11Keycode | crates/gpui/src/platform/linux/global_hotkey.rs:53-81 | the nested row-major loop with its early return computes `X11Keycode` |
| LinuxHotkey.XServer.GrabKey | crates/gpui/src/platform/linux/global_hotkey.rs:188-196 | a grab succeeds unless another client holds it, and is then added to the server's grabs; a failure changes nothing |
| LinuxHotkey.XServer.UngrabKey | crates/gpui/src/platform/linux/global_hotkey.rs:209 | the grab is released |
| LinuxHotkey.X11GlobalHotkey.constructor | crates/gpui/src/platform/linux/global_hotkey.rs:169-174 | both maps start empty |
| LinuxHotkey.X11GlobalHotkey.Register | crates/gpui/src/platform/linux/global_hotkey.rs:176-200 | on an unresolvable key or a refused grab: Err, and both maps and the server's grabs are unchanged; on success: Ok, both maps hold `id`, and the grab is added; no grab leaks when `id` was not registered before |
| LinuxHotkey.X11GlobalHotkey.Unregister | crates/gpui/src/platform/linux/global_hotkey.rs:202-212 | `id` leaves both maps; the grab it held is released, and nothing is ungrabbed when it held none |
| LinuxHotkey.ReRegisterLeaksGrab | crates/gpui/src/platform/linux/global_hotkey.rs:198 | registering the same id twice with different keys leaves the first grab active with no map entry pointing at it |
| LinuxHotkey.X11GlobalHotkey.RegisterReleasingPrevious | crates/gpui/src/platform/linux/global_hotkey.rs:176-200 | corrected register: the same error values as `Register`, each leaving the maps and the grabs unchanged; on success both maps are updated at `id`, and the server's grabs gain the new grab and lose the id's previous one exactly when it differs and no other id shares it; every grab on the server belongs to a registered id, and every registered id's grab stays held |
| LinuxHotkey.SharedGrabSurvivesRebinding | crates/gpui/src/platform/linux/global_hotkey.rs:176-200 | with ids 1 and 2 both bound to "a", rebinding id 1 to "b" through the corrected register keeps the grab on "a" for id 2 |
| LinuxHotkey.ReRegisterReleasesGrab | crates/gpui/src/platform/linux/global_hotkey.rs:198 | with the corrected register, re-registering leaves only the new grab |
| LinuxHotkey.WaylandGlobalHotkey.Register | crates/gpui/src/platform/linux/global_hotkey.rs:231-233 | always the "not supported on Wayland" error |
| WindowsHotkey.MapModifiers | crates/gpui/src/platform/windows/global_hotkey.rs:30-45 | MOD_ALT, MOD_CONTROL, MOD_SHIFT and MOD_WIN are set exactly when alt, control, shift and platform are held; no other bit |
| WindowsHotkey.MapModifiersInjective | crates/gpui/src/platform/windows/global_hotkey.rs:30-45 | two keystrokes get the same mask iff they hold the same modifiers |
| WindowsHotkey.MapKeyToVk | crates/gpui/src/platform/windows/global_hotkey.rs:48-121 | a code is below 0x80; an error is the unsupported-key message for the lower-cased name; a name that is one byte long after lower-casing always maps |
| WindowsHotkey.VkOfName | crates/gpui/src/platform/windows/global_hotkey.rs:47-121 | a code is below 0x80; an error carries the name and only occurs for a name longer or shorter than one byte |
| WindowsHotkey.VkCaseInsensitive | crates/gpui/src/platform/windows/global_hotkey.rs:48 | a name and its lower-cased form map alike |
| WindowsHotkey.VkOfLetterOrDigit | crates/gpui/src/platform/windows/global_hotkey.rs:48-84 | letters of either case map to 0x41..0x5A in order; digits to 0x30..0x39 |
| WindowsHotkey.VkOfFunctionKey | crates/gpui/src/platform/windows/global_hotkey.rs:85-96 | f1..f12 map to VK_F1..VK_F12 |
| WindowsHotkey.SpaceAlias | crates/gpui/src/platform/windows/global_hotkey.rs:97 | "space" and " " both give VK_SPACE |
| WindowsHotkey.ReturnAlias | crates/gpui/src/platform/windows/global_hotkey.rs:98 | "enter" and "return" both give VK_RETURN |
| WindowsHotkey.EscapeAlias | crates/gpui/src/platform/windows/global_hotkey.rs:100 | "escape" and "esc" both give VK_ESCAPE |
| WindowsHotkey.VkErrorExactly | crates/gpui/src/platform/windows/global_hotkey.rs:112-121 | the mapping fails exactly for names that are neither in the table nor one byte long, with the unsupported-key message |
| WindowsHotkey.NamedKeysMapped | crates/gpui/src/platform/windows/global_hotkey.rs:85-111 | every named key of the table maps to a code |
| WindowsHotkey.MinusIsInsert | crates/gpui/src/platform/windows/global_hotkey.rs:112-116 | as written, "-" maps to the same code as "insert" (VK_INSERT) |
| WindowsHotkey.PeriodIsDelete | crates/gpui/src/platform/windows/global_hotkey.rs:112-116 | as written, "." maps to the same code as "delete" |
| WindowsHotkey.QuoteIsRightArrow | crates/gpui/src/platform/windows/global_hotkey.rs:112-116 | as written, "'" maps to the same code as "right" |
| WindowsHotkey.VkOfNameCorrected | crates/gpui/src/platform/windows/global_hotkey.rs:112-116 | corrected mapping: a code from the OEM range (0xBA and up) is given exactly to punctuation keys |
| WindowsHotkey.CorrectedPunctuationIsDistinct | crates/gpui/src/platform/windows/global_hotkey.rs:112-116 | with the corrected mapping no punctuation key shares a code with any other key |
| WindowsHotkey.CorrectedAgreesOnTable | crates/gpui/src/platform/windows/global_hotkey.rs:48-121 | the corrected mapping agrees with the original on letters, digits, space and all named keys |
| WindowsHotkey.HotkeyTable.RegisterHotKey | crates/gpui/src/platform/windows/global_hotkey.rs:19 | `RegisterHotKey` succeeds iff the modifier and key combination is free, and then adds the entry |
| WindowsHotkey.HotkeyTable.UnregisterHotKey | crates/gpui/src/platform/windows/global_hotkey.rs:26 | removes the window's entry for that id, reporting whether there was one |
| WindowsHotkey.Register | crates/gpui/src/platform/windows/global_hotkey.rs:14-21 | a key-mapping error is returned before the OS table is touched; a taken combination gives "Failed to register hotkey" and no change; otherwise the entry is added under `id as i32` |
| WindowsHotkey.Unregister | crates/gpui/src/platform/windows/global_hotkey.rs:24-28 | removes the id's entry, if any, and reports nothing |
| MacHotkey.CStringText | crates/gpui/src/platform/mac/global_hotkey.rs:38 | the text read through the C string stops at the first NUL; invalid UTF-8 reads as "" |
| MacHotkey.KeystrokeMatchesEvent | crates/gpui/src/platform/mac/global_hotkey.rs:9-45 | a match needs a key-down event, equal Command/Control/Alternate/Shift state, and characters present |
| MacHotkey.OtherFlagsIgnored | crates/gpui/src/platform/mac/global_hotkey.rs:16-20 | flag bits other than the four modifier masks never change the answer |
| MacHotkey.MatchIgnoresCase | crates/gpui/src/platform/mac/global_hotkey.rs:38-43 | lower-casing the stored key, or the event's characters, does not change the answer |
| MacHotkey.KeyDownMatchesExactly | crates/gpui/src/platform/mac/global_hotkey.rs:9-45 | a key-down event for one keystroke matches a stored keystroke iff all four modifiers agree and the keys agree ignoring case |
| MacHotkey.FirstMatchingSound | crates/gpui/src/platform/mac/global_hotkey.rs:47-57 | a returned id is registered and its keystroke matches; None iff no registered keystroke matches |
| MacHotkey.FirstMatchingInOrder | crates/gpui/src/platform/mac/global_hotkey.rs:51-55 | the search returns the first id, in iteration order, whose keystroke matches |
| MacHotkey.EmptyRegistryNeverMatches | crates/gpui/src/platform/mac/global_hotkey.rs:56 | an empty registry gives None |
| MacHotkey.FindMatchingHotkey | crates/gpui/src/platform/mac/global_hotkey.rs:47-57 | the loop with its early return computes the first match in iteration order |
| SingleInstance.SocketPathShape | crates/gpui/src/platform/single_instance.rs:49-54 | the path is XDG_RUNTIME_DIR, else TMPDIR, else /tmp, joined with `<app_id>.sock` |
| SingleInstance.SocketPathInjective | crates/gpui/src/platform/single_instance.rs:49-54 | in one environment, different app ids never share a socket path |
| SingleInstance.RuntimeDir | crates/gpui/src/platform/single_instance.rs:50-52 | the directory is /tmp or the value of one of the variables, and /tmp when neither XDG_RUNTIME_DIR nor TMPDIR is set |
| SingleInstance.SocketPath | crates/gpui/src/platform/single_instance.rs:49-54 | an absolute app id replaces the directory, as `Path::join` does: the path is the id followed by `.sock` |
| SingleInstance.SocketNamespace.Connect | crates/gpui/src/platform/single_instance.rs:90 | a connect succeeds iff a live listener is bound at the path |
| SingleInstance.SocketNamespace.RemoveFile | crates/gpui/src/platform/single_instance.rs:94 | the socket file is gone afterwards |
| SingleInstance.SocketNamespace.Bind | crates/gpui/src/platform/single_instance.rs:95 | binding succeeds only where no file exists, and leaves a live listener there |
| SingleInstance.Instance.Drop | crates/gpui/src/platform/single_instance.rs:138-142 | dropping the guard removes exactly its socket file |
| SingleInstance.Acquire | crates/gpui/src/platform/single_instance.rs:85-102 | a live listener gives AlreadyRunning and no change; otherwise the stale file is removed and a failed bind gives AlreadyRunning, a successful one a guard recording the path with a live listener there |
| SingleInstance.SecondInstanceRefusedUntilDrop | crates/gpui/src/platform/single_instance.rs:85-142 | acquire, acquire again (refused), drop, acquire again (granted) |
| SingleInstance.StaleSocketRecovered | crates/gpui/src/platform/single_instance.rs:94-95 | after the holder dies without dropping its guard, the next acquire succeeds |
| SingleInstance.ReadTriggersCallback | crates/gpui/src/platform/single_instance.rs:123-127 | the callback fires iff at least 8 bytes were read and the first 8 are "activate" |
| SingleInstance.SentinelRoundTrip | crates/gpui/src/platform/single_instance.rs:125-151 | of the prefixes of the sentinel, only the whole of it fires |
| SingleInstance.TrailingBytesIgnored | crates/gpui/src/platform/single_instance.rs:125 | bytes after the first 8 never change the answer |
| SingleInstance.AtMostOneCallbackPerConnection | crates/gpui/src/platform/single_instance.rs:120-132 | at most one callback per accepted connection; nothing after an accept error counts |
| SingleInstance.ServeActivations | crates/gpui/src/platform/single_instance.rs:119-133 | the accept loop fires the callback as often as the specification counts: it goes on after read errors and other payloads, and stops at an accept error |
| SingleInstance.SendActivate | crates/gpui/src/platform/single_instance.rs:145-153 | no listener gives a connect error; otherwise exactly the sentinel is written (or the write error returned), and what is written fires the receiver |
| SingleInstance.MutexName | crates/gpui/src/platform/single_instance.rs:163 | the name is `Global\` followed by the app id |
| SingleInstance.MutexNamespace.CreateMutex | crates/gpui/src/platform/single_instance.rs:165-166 | opens a handle on the named mutex, reporting whether it already existed |
| SingleInstance.MutexNamespace.CloseHandle | crates/gpui/src/platform/single_instance.rs:43 | one handle fewer; the mutex disappears with its last handle |
| SingleInstance.WindowsInstance.Drop | crates/gpui/src/platform/single_instance.rs:39-46 | dropping the guard closes its handle |
| SingleInstance.WindowsAcquire | crates/gpui/src/platform/single_instance.rs:157-174 | a failed create, or an existing mutex (whose new handle is closed again), gives AlreadyRunning and no change; otherwise the guard holds the only handle |
| SingleInstance.WindowsServeActivations | crates/gpui/src/platform/single_instance.rs:176 | on Windows no callback ever fires |
| SingleInstance.WindowsSendActivate | crates/gpui/src/platform/single_instance.rs:179-182 | on Windows sending always succeeds |
| Toasts.FromSecs | crates/gpui/src/elements/toast.rs:40 | `Duration::from_secs`: whole seconds, no nanoseconds |
| Toasts.NewToast | crates/gpui/src/elements/toast.rs:19-43 | a new toast has its title, no body, 3 s and TopRight |
| Toasts.WithBody | crates/gpui/src/elements/toast.rs:46-49 | sets the body and nothing else |
| Toasts.WithDuration | crates/gpui/src/elements/toast.rs:52-55 | sets the duration and nothing else |
| Toasts.WithPosition | crates/gpui/src/elements/toast.rs:58-61 | sets the position and nothing else |
| Toasts.SettersCommute | crates/gpui/src/elements/toast.rs:46-61 | the setters can be applied in any order |
| Toasts.DismissStep | crates/gpui/src/elements/toast.rs:101-106 | an index in range removes that entry, keeps the earlier ones, and shifts the later ones down in order (the same multiset less one); an index out of range changes nothing |
| Toasts.ToastStack.constructor | crates/gpui/src/elements/toast.rs:79-84 | an empty stack at TopRight |
| Toasts.ToastStack.SetPosition | crates/gpui/src/elements/toast.rs:87-90 | changes only the position |
| Toasts.ToastStack.Push | crates/gpui/src/elements/toast.rs:93-98 | appends at the end, keeps the earlier toasts, and returns the old length as the index the timer captures |
| Toasts.ToastStack.Dismiss | crates/gpui/src/elements/toast.rs:99-106 | the timer's step: `DismissStep` at the captured index; the position is kept |
| Toasts.ToastStack.Clear | crates/gpui/src/elements/toast.rs:113-116 | no toasts left, position unchanged |
| Toasts.SecondToastOutlivesItsTimer | crates/gpui/src/elements/toast.rs:98-104 | push A, push B, both timers fire in order: B is still shown |
| Toasts.SecondTimerRemovesThirdToast | crates/gpui/src/elements/toast.rs:98-104 | with three toasts, the second timer removes the third toast instead of the second |
| Toasts.DismissTicket | crates/gpui/src/elements/toast.rs:98-104 | corrected dismissal: removes exactly the entries with that ticket |
| Toasts.DismissTicketRemovesOne | crates/gpui/src/elements/toast.rs:98-104 | corrected dismissal with distinct tickets removes exactly the entry holding the ticket and keeps the others in order |
| Toasts.DismissTicketMissing | crates/gpui/src/elements/toast.rs:98-104 | corrected dismissal of a ticket no entry holds (a timer firing after `clear`) changes nothing |
| Toasts.TicketedToastStack.Push | crates/gpui/src/elements/toast.rs:93-98 | corrected push: appends with a ticket no entry holds |
| Toasts.TicketedToastStack.Dismiss | crates/gpui/src/elements/toast.rs:99-106 | corrected timer step: removes the toast by its ticket, keeping the tickets distinct |
| Toasts.AllTicketsDismissedEmpties | crates/gpui/src/elements/toast.rs:98-104 | when every pushed toast's timer has fired, in any order, the corrected stack is empty |
| Toasts.DismissTicketKeepsTicketsValid | crates/gpui/src/elements/toast.rs:101-106 | corrected dismissal keeps the tickets below the next one and distinct |
| WindowPositioner.CenterIn | crates/gpui/src/platform/window_positioner.rs:49-53 | same size; the window's centre is the display's centre; a window no larger than the display lies inside it |
| WindowPositioner.CornerPosition | crates/gpui/src/platform/window_positioner.rs:55-78 | same size; with no primary display, the origin; otherwise the window keeps `margin` from the chosen right/left and bottom/top edges |
| WindowPositioner.CornerInsideDisplay | crates/gpui/src/platform/window_positioner.rs:62-74 | a window that fits with its margin lies inside the display |
| WindowPositioner.FindDisplay | crates/gpui/src/platform/window_positioner.rs:20 | the bounds of the first display with the id, None iff there is none |
| WindowPositioner.ComputeWindowBounds | crates/gpui/src/platform/window_positioner.rs:5-47 | every placement keeps the requested size |
| WindowPositioner.CenterPlacement | crates/gpui/src/platform/window_positioner.rs:12-17 | centred on the primary display, or at the origin without one |
| WindowPositioner.CenterOnDisplayPlacement | crates/gpui/src/platform/window_positioner.rs:19-28 | centred on the first display with the id, else on the primary display, else at the origin |
| WindowPositioner.TrayCenterPlacement | crates/gpui/src/platform/window_positioner.rs:29-33 | horizontally centred under the tray icon, just below it, whatever the displays |
| WindowPositioner.CornerChoices | crates/gpui/src/platform/window_positioner.rs:34-45 | TopRight, BottomRight, TopLeft and BottomLeft select (right, bottom) = (T,F), (T,T), (F,F), (F,T) |
| LinuxDialog.BuildMessage | crates/gpui/src/platform/linux/dialog.rs:110-118 | a detail ends the text; a non-empty message starts it and is separated from the detail by one blank line; with an empty message the text is exactly the detail, and without a detail exactly the message |
| LinuxDialog.ZenityArguments | crates/gpui/src/platform/linux/dialog.rs:17-38 | one button or none: the kind's flag with title and text; more: `--question`, the ok and cancel labels from buttons 0 and 1, then `--extra-button` for each later button in order |
| LinuxDialog.MatchingButtonFrom | crates/gpui/src/platform/linux/dialog.rs:49-53 | the first button from the start index whose label equals the text, or None when there is none |
| LinuxDialog.ZenityChoiceMeaning | crates/gpui/src/platform/linux/dialog.rs:42-56 | 0 iff zenity succeeded; an index of 2 or more names the first extra button equal to the trimmed stdout; 1 when none is; always a valid button index |
| LinuxDialog.ZenityResult | crates/gpui/src/platform/linux/dialog.rs:42-56 | the search loop computes that answer |
| LinuxDialog.TryZenity | crates/gpui/src/platform/linux/dialog.rs:13-57 | an answer iff zenity ran; 0 for one button or none; a valid index for two or more |
| LinuxDialog.KdialogArguments | crates/gpui/src/platform/linux/dialog.rs:63-95 | one button or none: the kind's flag with text and title; otherwise `--warningyesnocancel` iff three or more buttons, else `--warningyesno`, with the yes, no (and cancel) labels from buttons 0, 1 (and 2) |
| LinuxDialog.KdialogChoice | crates/gpui/src/platform/linux/dialog.rs:102-107 | exit codes 0, 1, 2 are returned as they are; anything else, or no code, gives 0 |
| LinuxDialog.TryKdialog | crates/gpui/src/platform/linux/dialog.rs:59-108 | an answer iff kdialog ran; 0 for one button or none; a valid index for three or more |
| LinuxDialog.KdialogCancelWithTwoButtons | crates/gpui/src/platform/linux/dialog.rs:102-107 | with two buttons an exit code of 2 is still returned as index 2 |
| LinuxDialog.ShowDialogAnswer | crates/gpui/src/platform/linux/dialog.rs:3-11 | zenity's answer when zenity ran, else kdialog's, else 0 |
| LinuxDialog.ShowDialog | crates/gpui/src/platform/linux/dialog.rs:3-11 | 0 for one button or none; a valid button index for three or more, and for two whenever zenity ran |
| WindowsDialog.IconFlag | crates/gpui/src/platform/windows/dialog.rs:6-10 | the icon flag lies in the icon bits only |
| WindowsDialog.ButtonFlag | crates/gpui/src/platform/windows/dialog.rs:12-16 | the button flag lies in the button bits only: MB_OK, MB_OKCANCEL or MB_YESNOCANCEL |
| WindowsDialog.Style | crates/gpui/src/platform/windows/dialog.rs:6-32 | the icon bits hold the kind's icon flag, the button bits the count's button flag, and no other bit is set |
| WindowsDialog.MessageText | crates/gpui/src/platform/windows/dialog.rs:18-22 | without a detail, the message itself; with one, the message, a blank line ("\n\n") and the detail, nothing else |
| WindowsDialog.WideNul | crates/gpui/src/platform/windows/dialog.rs:24-25 | the buffer ends in a 0 unit, is at least one unit longer than the text, and a text without NUL has no other 0 unit |
| WindowsDialog.StyleDeterminesIconAndButtons | crates/gpui/src/platform/windows/dialog.rs:6-32 | the style gives back both flags, so two dialogs share a style iff they share the kind and the button set |
| WindowsDialog.MessageTextAgainstLinux | crates/gpui/src/platform/windows/dialog.rs:18-22 | the text equals the Linux text, except that an empty message keeps the blank line before the detail |
| WindowsDialog.EncodeChar | crates/gpui/src/platform/windows/dialog.rs:24-25 | one unit below U+10000, else a surrogate pair; a 0 unit only for NUL |
| WindowsDialog.DecodeEncode | crates/gpui/src/platform/windows/dialog.rs:24-25 | decoding the UTF-16 encoding gives the text back |
| WindowsDialog.NoNulEncodesWithoutZero | crates/gpui/src/platform/windows/dialog.rs:24-25 | text without NUL encodes without a 0 unit |
| WindowsDialog.WideNulReadsBack | crates/gpui/src/platform/windows/dialog.rs:24-25 | the buffer ends in its only 0, and what precedes it decodes to the text |
| WindowsDialog.ResultIndex | crates/gpui/src/platform/windows/dialog.rs:36-48 | with two buttons or more every code maps to a valid index; with fewer, every code except IDNO maps to 0 |
| WindowsDialog.ResultIndexCoversButtons | crates/gpui/src/platform/windows/dialog.rs:12-48 | each button the box shows answers with its own index: OK 0, Cancel the last (1 for two buttons), Yes 0, No 1 |
| WindowsDialog.ShowDialogSync | crates/gpui/src/platform/windows/dialog.rs:5-48 | the index returned for a return code is a valid button index |
| LinuxPower.ParseDbusUint32 | crates/gpui/src/platform/linux/power.rs:63-72 | the line loop with its early return computes `DbusUint32` |
| LinuxPower.PrefixLineDecides | crates/gpui/src/platform/linux/power.rs:65-70 | once a line with the prefix is seen, later lines are never consulted |
| LinuxPower.NoPrefixLineSkipped | crates/gpui/src/platform/linux/power.rs:65-71 | lines without the prefix are skipped; with none at all the result is None |
| LinuxPower.ValueLineParses | crates/gpui/src/platform/linux/power.rs:66-68 | the indented `uint32 <n>` line is recognised and gives n |
| LinuxPower.ReplyRoundTrip | crates/gpui/src/platform/linux/power.rs:63-72 | parsing a `--print-reply` answer that carries a cookie gives the cookie back |
| LinuxPower.InhibitArguments | crates/gpui/src/platform/linux/power.rs:5-14 | the call asks for the reply to be printed, and its last two arguments are the app name and the reason as `string:` values |
| LinuxPower.InhibitScreensaver | crates/gpui/src/platform/linux/power.rs:3-23 | a handle iff dbus-send ran and succeeded and its reply parses; the handle holds the parsed cookie |
| LinuxPower.UninhibitArguments | crates/gpui/src/platform/linux/power.rs:25-36 | six arguments, the last being `uint32:` followed by the cookie |
| LinuxPower.CookieRoundTrip | crates/gpui/src/platform/linux/power.rs:3-36 | the cookie from an Inhibit reply is the one passed back to UnInhibit |
| LinuxPower.InhibitPairsWithUninhibit | crates/gpui/src/platform/linux/power.rs:5-34 | Inhibit and UnInhibit use the same bus, destination, call type, object path and interface, with different members; only Inhibit asks for the reply |
| LinuxPower.InhibitSuspendArguments | crates/gpui/src/platform/linux/power.rs:39-43 | systemd-inhibit is asked for a sleep lock on behalf of the app name with the reason, and runs `sleep infinity` to hold it |
| LinuxPower.InhibitSuspend | crates/gpui/src/platform/linux/power.rs:38-51 | a child-process handle iff systemd-inhibit could be spawned |
| LinuxPower.ReleaseBlocker | crates/gpui/src/platform/linux/power.rs:53-61 | a cookie is released through UnInhibit with that cookie; a child is killed and waited for |
| WindowsPower.BitsHasFlag | crates/gpui/src/platform/windows/power.rs:15-27 | each ES flag is set in the bits iff it is in the state, and no other bit is set |
| WindowsPower.BitsOfUnion | crates/gpui/src/platform/windows/power.rs:27 | OR of the bits is the bits of the union |
| WindowsPower.BitsInjective | crates/gpui/src/platform/windows/power.rs:15-27 | different states have different bits |
| WindowsPower.PowerSaveFlags | crates/gpui/src/platform/windows/power.rs:15-22 | PreventAppSuspension gives CONTINUOUS\|SYSTEM_REQUIRED; PreventDisplaySleep adds DISPLAY_REQUIRED |
| WindowsPower.DisplayFlagsIncludeAppFlags | crates/gpui/src/platform/windows/power.rs:17-20 | the display flags are a strict bitwise superset of the app-suspension flags |
| WindowsPower.FoldOrIsUnion | crates/gpui/src/platform/windows/power.rs:25-27 | the fold of ORs is the bits of the union of the states |
| WindowsPower.CombinedPowerState | crates/gpui/src/platform/windows/power.rs:24-27 | ES_CONTINUOUS is always set, and no bit other than the three ES flags ever is |
| WindowsPower.CombinedFlags | crates/gpui/src/platform/windows/power.rs:24-27 | the combined state holds ES_CONTINUOUS and exactly the flags some blocker holds |
| WindowsPower.NoBlockersIsContinuous | crates/gpui/src/platform/windows/power.rs:25-27 | no blockers give ES_CONTINUOUS alone |
| WindowsPower.CombinedOrderIndependent | crates/gpui/src/platform/windows/power.rs:25-27 | the combination does not depend on the map's iteration order or repetitions |
| WindowsPower.DisplayRequiredIffSomeBlocker | crates/gpui/src/platform/windows/power.rs:15-27 | DISPLAY_REQUIRED iff some blocker prevents display sleep; SYSTEM_REQUIRED iff there is any blocker |
| WindowsPower.SystemIdleMillis | crates/gpui/src/platform/windows/power.rs:33-46 | None iff GetLastInputInfo fails; otherwise the last input time plus the idle time is now modulo 2^32; when the counter has not wrapped it is the plain difference |
| WindowsPower.IdleAcrossWrap | crates/gpui/src/platform/windows/power.rs:41 | across a wrap of the tick counter the idle time is still the elapsed time |
| LinuxOsInfo.ReadOsVersion | crates/gpui/src/platform/linux/os_info.rs:13-23 | the line loop with its early return computes `OsVersion` |
| LinuxOsInfo.FirstPrettyNameDecides | crates/gpui/src/platform/linux/os_info.rs:17-21 | the first line starting with `PRETTY_NAME=` decides, its value with the quotes trimmed |
| LinuxOsInfo.NoPrettyNameIsEmpty | crates/gpui/src/platform/linux/os_info.rs:22 | without such a line the version is "" |
| LinuxOsInfo.PrettyNameRoundTrip | crates/gpui/src/platform/linux/os_info.rs:17-21 | a quoted PRETTY_NAME reads back as the name |
| LinuxOsInfo.Hostname | crates/gpui/src/platform/linux/os_info.rs:25-29 | "unknown" when unreadable; otherwise no longer than the content, with no white space at either end |
| LinuxOsInfo.HostnamePadded | crates/gpui/src/platform/linux/os_info.rs:25-29 | a name with any white space before and after it reads back as exactly the name: the result is the content's trimmed core |
| LinuxOsInfo.HostnameRoundTrip | crates/gpui/src/platform/linux/os_info.rs:25-29 | a name written with a line feed reads back as the name |
| LinuxOsInfo.LocaleTag | crates/gpui/src/platform/linux/os_info.rs:34-40 | no '.' and no '_' remain in the tag |
| LinuxOsInfo.LocaleTagOfPosixName | crates/gpui/src/platform/linux/os_info.rs:34-40 | `ll_TT.codeset` becomes `ll-TT` |
| LinuxOsInfo.Locale | crates/gpui/src/platform/linux/os_info.rs:31-42 | neither variable set gives "en-US" |
| LinuxOsInfo.LcAllOverridesLang | crates/gpui/src/platform/linux/os_info.rs:32-33 | with LC_ALL set, LANG does not matter; without it, LANG decides |
| LinuxOsInfo.GetOsInfo | crates/gpui/src/platform/linux/os_info.rs:3-11 | name "linux", the given architecture, and the version, hostname and locale equal to `OsVersion`, `Hostname` and `Locale` of the inputs, so the properties proved about those hold of the record |
| LinuxAutoLaunch.XdgConfigDir | crates/gpui/src/platform/linux/auto_launch.rs:4-8 | None iff neither XDG_CONFIG_HOME nor HOME is set |
| LinuxAutoLaunch.DesktopFilePath | crates/gpui/src/platform/linux/auto_launch.rs:10-12 | a path iff a config directory is known |
| LinuxAutoLaunch.DesktopFilePathShape | crates/gpui/src/platform/linux/auto_launch.rs:10-12 | the path is `<config>/autostart/<app_id>.desktop` |
| LinuxAutoLaunch.DesktopFilePathInjective | crates/gpui/src/platform/linux/auto_launch.rs:10-12 | different app ids never share a desktop file |
| LinuxAutoLaunch.HomeConfigPath | crates/gpui/src/platform/linux/auto_launch.rs:7 | without XDG_CONFIG_HOME, an absolute HOME gives an absolute path |
| LinuxAutoLaunch.EmptyXdgConfigHomeIsRelative | crates/gpui/src/platform/linux/auto_launch.rs:5-6 | as written, an empty XDG_CONFIG_HOME gives the relative path `autostart/<app_id>.desktop` |
| LinuxAutoLaunch.XdgConfigDirCorrected | crates/gpui/src/platform/linux/auto_launch.rs:4-8 | corrected: XDG_CONFIG_HOME counts only when it is absolute |
| LinuxAutoLaunch.CorrectedPathIsAbsolute | crates/gpui/src/platform/linux/auto_launch.rs:4-12 | with the correction the path is always absolute, and it agrees with the original whenever XDG_CONFIG_HOME is unset or absolute |
| LinuxAutoLaunch.DesktopEntryReadsBack | crates/gpui/src/platform/linux/auto_launch.rs:23-27 | the desktop file splits into exactly its five lines: the header, Type, Name, Exec and X-GNOME-Autostart-enabled |
| LinuxAutoLaunch.DesktopEntry | crates/gpui/src/platform/linux/auto_launch.rs:23-27 | the entry starts with the `[Desktop Entry]` header line and ends with a line feed |
| LinuxAutoLaunch.IsAutoLaunchEnabled | crates/gpui/src/platform/linux/auto_launch.rs:36-38 | true only with a config directory; for a relative app id, exactly when `<config>/autostart/<app_id>.desktop` exists |
| LinuxAutoLaunch.ConfigFileSystem.Write | crates/gpui/src/platform/linux/auto_launch.rs:28 | a successful write replaces the file's content |
| LinuxAutoLaunch.ConfigFileSystem.RemoveFile | crates/gpui/src/platform/linux/auto_launch.rs:30 | a missing file gives NotFound, an undeletable one PermissionDenied, and both leave the files as they were; otherwise the file is removed and nothing else changes |
| LinuxAutoLaunch.SetAutoLaunch | crates/gpui/src/platform/linux/auto_launch.rs:14-34 | no config directory is an error; disabling is always Ok and removes the entry unless it cannot be deleted, which leaves the files as they were; enabling writes exactly the desktop entry unless the directory, the executable or the write fails, and then changes nothing; after Ok the query answers `enabled`, except after a disable that could not delete the entry |
| LinuxAutoLaunch.DisableLeavesUndeletableEntry | crates/gpui/src/platform/linux/auto_launch.rs:29-33 | as written, disabling an existing entry that cannot be deleted reports Ok, leaves the files unchanged, and the query still says enabled |
| LinuxAutoLaunch.SetAutoLaunchReportingRemoval | crates/gpui/src/platform/linux/auto_launch.rs:14-34 | corrected: disabling reports RemoveFailed, with no change, when the entry exists and cannot be deleted, and otherwise removes it; enabling behaves as `set_auto_launch`; after every Ok the query answers `enabled` |
| LinuxTray.ConvertMenuItem | crates/gpui/src/platform/linux/tray.rs:57-83 | separator to separator; the others keep their label; a toggle's icon is the checked icon iff checked; a submenu converts its children one by one, in order |
| LinuxTray.ConvertMenuItems | crates/gpui/src/platform/linux/tray.rs:67 | one converted item per item, in order |
| LinuxTray.ConvertKeepsItemCount | crates/gpui/src/platform/linux/tray.rs:57-83 | the converted tree has as many items as the original |
| LinuxTray.ConvertKeepsLabels | crates/gpui/src/platform/linux/tray.rs:57-83 | the converted tree shows the same labels in the same order |
| LinuxTray.ArgbPixels | crates/gpui/src/platform/linux/tray.rs:21-27 | pixel k of the output is [A, R, G, B] of pixel k of the input |
| LinuxTray.ArgbRoundTrip | crates/gpui/src/platform/linux/tray.rs:21-27 | moving alpha back to the end restores the RGBA bytes |
| LinuxTray.RgbaToArgb | crates/gpui/src/platform/linux/tray.rs:21-27 | the chunk loop computes the reordering |
| LinuxTray.GpuiTray.Title | crates/gpui/src/platform/linux/tray.rs:38-40 | the title is the tooltip |
| LinuxTray.GpuiTray.Menu | crates/gpui/src/platform/linux/tray.rs:49-54 | one converted entry per menu item, in order |
| LinuxTray.GpuiTray.IconPixmap | crates/gpui/src/platform/linux/tray.rs:12-36 | no icon for empty data or a failed decode; otherwise exactly one icon, with the image's size and the ARGB pixels |
| LinuxTray.LinuxTray.EnsureStarted | crates/gpui/src/platform/linux/tray.rs:94-106 | starts a blank tray only when none is running; a running one is kept |
| LinuxTray.LinuxTray.SetIcon | crates/gpui/src/platform/linux/tray.rs:108-116 | starts the tray if needed and sets the icon data (empty for None), keeping the rest |
| LinuxTray.LinuxTray.SetTooltip | crates/gpui/src/platform/linux/tray.rs:118-126 | starts the tray if needed and sets the tooltip, which becomes the title, keeping the rest |
| LinuxTray.LinuxTray.SetMenu | crates/gpui/src/platform/linux/tray.rs:128-135 | starts the tray if needed and sets the menu, keeping the rest |
| UtilMacros.Path | crates/util_macros/src/util_macros.rs:25-40 | unchanged off Windows; on Windows no '/' remains |
| UtilMacros.PathOnWindows | crates/util_macros/src/util_macros.rs:31-34 | on Windows: every '/' turned into '\\', behind `C:` exactly when the result starts with '\\' |
| UtilMacros.PathRoundTrip | crates/util_macros/src/util_macros.rs:18-22 | a Unix absolute path is recovered from its Windows form |
| UtilMacros.Uri | crates/util_macros/src/util_macros.rs:56-66 | unchanged off Windows |
| UtilMacros.UriOfFilePath | crates/util_macros/src/util_macros.rs:49-61 | on Windows a file URI gets `C:/` right after `file:///`, and nothing else changes |
| UtilMacros.UriWithoutScheme | crates/util_macros/src/util_macros.rs:61 | text without `file:///` is left alone even on Windows |
| UtilMacros.LineEndings | crates/util_macros/src/util_macros.rs:82-92 | unchanged off Windows; on Windows every '\n' is preceded by '\r' |
| UtilMacros.LineEndingsRoundTrip | crates/util_macros/src/util_macros.rs:87 | replacing "\r\n" by "\n" again restores a text that had no '\r' |
| UtilMacros.LineEndingsExample | crates/util_macros/src/util_macros.rs:75-79 | "Hello\nWorld" becomes "Hello\r\nWorld" on Windows only |
| UtilMacros.ImportanceName | crates/util_macros/src/util_macros.rs:106-116 | the display is the capitalised variant name |
| UtilMacros.ImportanceFlagIsLoweredName | crates/util_macros/src/util_macros.rs:106-149 | the flag that selects an importance is its display lower-cased, and different importances display differently |
| UtilMacros.Kind | crates/util_macros/src/util_macros.rs:135-150 | an argument names iterations, weight, one of the five importances, or nothing known |
| UtilMacros.MetaError | crates/util_macros/src/util_macros.rs:134-154 | an argument is accepted iff it is `iterations`/`weight` with a value or an importance flag |
| UtilMacros.PerfArgs.constructor | crates/util_macros/src/util_macros.rs:118-129 | no iterations, no weight, Average importance |
| UtilMacros.PerfArgs.ParseInto | crates/util_macros/src/util_macros.rs:134-154 | sets only the field the argument names; an unknown identifier or a missing value is an error that changes nothing |
| UtilMacros.ArgumentError | crates/util_macros/src/util_macros.rs:209-212 | an argument passes `parse_into` and the parser iff it is `iterations`/`weight` with a value or an importance flag without one; an importance flag followed by `= expr` gives the parser's "expected `,`" error, and a `parse_into` error is kept as it is |
| UtilMacros.FirstError | crates/util_macros/src/util_macros.rs:211-212 | no error iff every argument is accepted by `parse_into` and the parser; an error is that of one of the arguments |
| UtilMacros.LastImportanceFlagWins | crates/util_macros/src/util_macros.rs:139-149 | the last importance flag decides |
| UtilMacros.NoImportanceFlagIsAverage | crates/util_macros/src/util_macros.rs:96-128 | without an importance flag the importance is Average |
| UtilMacros.ParsePerfArgs | crates/util_macros/src/util_macros.rs:210-212 | the first failing argument is the error, a valued importance flag included; otherwise each field holds the last value given for it, or its default |
| UtilMacros.PerfAttributes | crates/util_macros/src/util_macros.rs:220-226 | the original attributes, then `#[test]` only when none of them ends in `test`, then `#[allow(non_snake_case)]` |
| UtilMacros.Perf | crates/util_macros/src/util_macros.rs:209-299 | an argument error, a valued importance flag included, fails the expansion; otherwise the function comes back with its own attributes first, then `#[test]` unless one of them already ends in `test`, then `#[allow(non_snake_case)]` as the last, so that it is always a test |
| Text.Lower | crates/gpui/src/platform/mac/global_hotkey.rs:40-41 | lower-casing keeps the length |
| Text.LowerIdempotent | crates/gpui/src/platform/mac/global_hotkey.rs:40-43 | lower-casing twice is lower-casing once |
| Text.Trim | crates/gpui/src/platform/linux/os_info.rs:27 | the result neither starts nor ends with white space |
| Text.TrimAfterPadding | crates/gpui/src/platform/linux/power.rs:66-68 | leading white space is removed and an already-trimmed text is kept |
| Text.LinesOfTerminated | crates/gpui/src/platform/linux/os_info.rs:17 | splitting lines that each end in '\n' gives them back |
| Text.Terminated | crates/gpui/src/platform/linux/auto_launch.rs:24 | the text starts with the first line and its line feed, and ends with a line feed |
| Text.ReplaceCharIsMap | crates/util_macros/src/util_macros.rs:31 | replacing one character by one character maps the text character by character |
| Text.ParseDecimalRoundTrip | crates/gpui/src/platform/linux/power.rs:33-68 | parsing the decimal form of a u32 gives it back |
| Paths.JoinRelative | crates/gpui/src/platform/single_instance.rs:53 | joining a relative name puts it after the base and one separator |
| Paths.JoinInjective | crates/gpui/src/platform/single_instance.rs:53 | joining different relative names to one base gives different paths |
| Wrappers.U32AsI32 | crates/gpui/src/platform/windows/global_hotkey.rs:19 | `as i32` keeps the value modulo 2^32, and small values unchanged |

## Left out

- The native calls are left out: xcb, Win32, Cocoa/AppKit, D-Bus, ksni. The model takes their answers as inputs or as the abstract states listed above. These include `MessageBoxW`'s return code, the keyboard-mapping reply, `GetTickCount` and `GetLastInputInfo`.
- Threads and timers are left out:
  - The accept loop's background thread and blocking accept are not modelled. Only the loop body over a sequence of accept/read outcomes is.
  - The toast timer is not modelled. Dismissal is an explicit step that takes the captured index.
  - `dup` of the listener and `set_nonblocking` change no observable state here and are left out.
- External processes are left out: zenity, kdialog, dbus-send and systemd-inhibit. Their launch outcome, exit code and stdout are inputs.
- `from_utf8` and `from_utf8_lossy` are not modelled: the decoded text (or its absence) is the input.
- The file system and environment are not read: files and variables are parameters. `var_os` accepts non-Unicode values. The environment is modelled as a map of strings, so such values are not represented.
- Keystroke parsing is not part of this model; `Keystroke` is given.
- Image decoding (`image::load_from_memory`) is not modelled: its result is an input.
- `tool_tip` in the tray only copies the tooltip, like `title`, and is not modelled separately.
- Toast rendering and all element building are left out.
- Floating point is not modelled:
  - `Pixels` is modelled as exact `real`, without f32 rounding.
  - macOS `system_idle_time` works in f64 seconds and is not part of this model.
- Text.Lower: lower-casing is modelled for ASCII and U+212A KELVIN SIGN only, and keeps the length; `str::to_lowercase` maps other letters too, and some of them (such as 'İ') to two characters. The Kelvin sign is the one non-ASCII character whose lower case is an ASCII letter, so the key tables see no difference. Other case mapping is not captured where the lowered text itself is observable: in the macOS key comparison, and in WindowsHotkey.MapKeyToVk's error text, which for a key such as "É" carries "É" where the source reports "é".
- WindowsHotkey.MapKeyToVk: its error text is the name as Text.Lower leaves it, so for a non-ASCII letter other than U+212A it keeps the original case where `to_lowercase` would not; the codes it returns are unaffected.
- The thin wrapper files are not part of this model, because they hold no logic beyond the OS call:
  - the other macOS platform files;
  - the other Windows platform files;
  - linux/notifications.rs;
  - the examples.
- The `perf-enabled` branch of `#[perf]` depends on constants of a crate that is not part of this model. syn/quote token handling is reduced to paths and value texts: an argument is a path with an optional `= expr`, and other token shapes (a nested list such as `critical(x)`, a stray literal) are not modelled.
- LinuxHotkey.X11GlobalHotkey.Register: the keyboard-mapping reply must be well formed (8 <= min <= max, and `|keysyms| == count * per`). The X server guarantees this; the source would panic otherwise.
- LinuxHotkey.X11GlobalHotkey.Register: "no grab leaks" is promised only when `id` was not registered before. Re-registering leaks the previous grab; see Findings.
- WindowsHotkey.Register keeps the as-written key mapping so that it models the source. The corrected mapping is proved beside it.
- LinuxAutoLaunch.SetAutoLaunch creates `<config>/autostart`. The source creates the file's `parent()`. The two differ only when the app id contains '/'.
- LinuxDialog.TryKdialog bounds the index by the button count only for three buttons or more. With two buttons, an exit code of 2 is still returned as index 2 (`KdialogCancelWithTwoButtons`). Whether `--warningyesno` can exit with 2 depends on kdialog, which is not part of this model.
- WindowsDialog.ShowDialogSync promises 0 for fewer than two buttons only for codes other than IDNO. An MB_OK box never returns IDNO.
- LinuxHotkey.ACCESS_ERROR and WindowsHotkey.HOTKEY_ALREADY_REGISTERED are placeholder texts. The source reports whatever the `Display` of x11rb's and windows-rs's error values prints (on Windows with the HRESULT appended), and that wording is not part of this model. Only which error occurs, and when, is modelled.
- LinuxHotkey.X11GlobalHotkey.Unregister releases the id's grab even when another id was registered with the same combination, as the source does. That other id's hotkey then stops firing. The corrected registration keeps such a shared grab, but unregistration is modelled as written.
- SingleInstance.SocketNamespace.RemoveFile cannot fail in the model. The source ignores a failed `remove_file` (single_instance.rs:94 and :140), for instance for another user's socket in a shared /tmp. The outcome of SingleInstance.Acquire is unaffected, because the bind that follows fails on the remaining file, and that failure is modelled by the paths that cannot be bound.
- LinuxAutoLaunch.SetAutoLaunch models disabling as written: a failed removal is ignored, so Ok does not mean the entry is gone. See Findings.
- LinuxHotkey.KeyNameToKeysym states its properties in lemmas, not in an ensures clause, because it is one large match over key names.

## Findings

| source | as written | input that shows it | evidently intended | confidence | as-written member | corrected member |
|---|---|---|---|---|---|---|
| crates/gpui/src/platform/linux/global_hotkey.rs:198 | `register` overwrites `keycodes[id]` without releasing the grab already stored under `id` | register id 1 for "a", then id 1 again for "b": the server keeps the grab on "a", and no map entry points at it, so `unregister(1)` never releases it | release the earlier grab, unless another id shares it, before storing the new one | not executed | LinuxHotkey.ReRegisterLeaksGrab | LinuxHotkey.X11GlobalHotkey.RegisterReleasingPrevious |
| crates/gpui/src/elements/toast.rs:98-104 | each timer removes the toast at the index captured at push time | push A, push B; A's timer removes index 0; B's timer finds index 1 out of range, so B is never dismissed (with three toasts the second timer removes C) | each timer dismisses its own toast | not executed | Toasts.SecondToastOutlivesItsTimer | Toasts.AllTicketsDismissedEmpties |
| crates/gpui/src/platform/windows/global_hotkey.rs:112-116 | any other one-character key maps to its upper-cased character code | "-" gives 0x2D = VK_INSERT, "." gives 0x2E = VK_DELETE, "'" gives 0x27 = VK_RIGHT | punctuation maps to its VK_OEM_* code | not executed | WindowsHotkey.MinusIsInsert | WindowsHotkey.CorrectedPunctuationIsDistinct |
| crates/gpui/src/platform/linux/auto_launch.rs:4-8 | XDG_CONFIG_HOME is used whenever it is set | XDG_CONFIG_HOME="" gives the relative path `autostart/<app_id>.desktop`, resolved against the working directory | an empty or relative XDG_CONFIG_HOME is ignored (XDG Base Directory Specification, "Environment variables") | not executed | LinuxAutoLaunch.EmptyXdgConfigHomeIsRelative | LinuxAutoLaunch.CorrectedPathIsAbsolute |
| crates/gpui/src/platform/linux/auto_launch.rs:30-33 | disabling discards the result of `remove_file` and returns Ok | an existing entry in an autostart directory the user cannot write to: `set_auto_launch(id, false)` returns Ok while `is_auto_launch_enabled(id)` stays true | ignore only a missing entry and report any other removal failure | not executed | LinuxAutoLaunch.DisableLeavesUndeletableEntry | LinuxAutoLaunch.SetAutoLaunchReportingRemoval |
