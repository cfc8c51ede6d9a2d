/** Message dialogs on Windows: one `MessageBoxW` call whose style is an
    icon chosen by the dialog kind and a button set chosen by the number of
    buttons, and whose return code is turned back into a button index. The
    call itself is not modelled: its return code is an input. */
module WindowsDialog {
  import opened Wrappers
  import opened Dialogs
  import LinuxDialog

  /** MESSAGEBOX_STYLE values. */
  const MB_OK: bv32 := 0x0
  const MB_OKCANCEL: bv32 := 0x1
  const MB_YESNOCANCEL: bv32 := 0x3
  const MB_ICONERROR: bv32 := 0x10
  const MB_ICONWARNING: bv32 := 0x30
  const MB_ICONINFORMATION: bv32 := 0x40

  /** MESSAGEBOX_RESULT values. */
  const IDOK: int := 1
  const IDCANCEL: int := 2
  const IDYES: int := 6
  const IDNO: int := 7

  /** The icon for the dialog kind. */
  function IconFlag(kind: DialogKind): (flag: bv32)
    ensures flag & 0xF == 0 && flag != 0
  {
    match kind
    case Info => MB_ICONINFORMATION
    case Warning => MB_ICONWARNING
    case Error => MB_ICONERROR
  }

  /** The button set for the number of buttons: OK for none or one, OK and
      Cancel for two, Yes, No and Cancel for more. */
  function ButtonFlag(count: nat): (flag: bv32)
    ensures flag & 0xF0 == 0 && flag <= 3
  {
    if count <= 1 then MB_OK
    else if count == 2 then MB_OKCANCEL
    else MB_YESNOCANCEL
  }

  /** The style passed to `MessageBoxW`. */
  function Style(options: DialogOptions): (style: bv32)
    ensures style & 0xF0 == IconFlag(options.kind)
    ensures style & 0xF == ButtonFlag(|options.buttons|)
    ensures style & !0xFF == 0
  {
    IconFlag(options.kind) | ButtonFlag(|options.buttons|)
  }

  /** The icon and the button set occupy separate bits, so the style gives
      back both: the kind and the button set are recoverable from it. */
  lemma StyleDeterminesIconAndButtons(a: DialogOptions, b: DialogOptions)
    ensures Style(a) & 0xF0 == IconFlag(a.kind) && Style(a) & 0xF == ButtonFlag(|a.buttons|)
    ensures Style(a) == Style(b) <==>
      a.kind == b.kind && ButtonFlag(|a.buttons|) == ButtonFlag(|b.buttons|)
  {
    var ia, ba := IconFlag(a.kind), ButtonFlag(|a.buttons|);
    var ib, bb := IconFlag(b.kind), ButtonFlag(|b.buttons|);
    assert (ia | ba) & 0xF0 == ia && (ia | ba) & 0xF == ba;
    assert (ib | bb) & 0xF0 == ib && (ib | bb) & 0xF == bb;
    if Style(a) == Style(b) {
      assert ia == ib;
      match a.kind
      case Info => assert b.kind == Info;
      case Warning => assert b.kind == Warning;
      case Error => assert b.kind == Error;
    }
  }

  /** The text of the box: the message, then a blank line and the detail
      whenever there is a detail, even after an empty message. */
  function MessageText(options: DialogOptions): (text: string)
    ensures options.detail.None? ==> text == options.message
    ensures options.detail.Some? ==>
      var detail := options.detail.value;
      && |text| == |options.message| + 2 + |detail|
      && text[..|options.message|] == options.message
      && text[|options.message|..|options.message| + 2] == "\n\n"
      && text[|options.message| + 2..] == detail
  {
    match options.detail
    case Some(detail) => options.message + "\n\n" + detail
    case None => options.message
  }

  /** The Windows text agrees with the Linux one except that an empty
      message followed by a detail keeps the leading blank line. */
  lemma MessageTextAgainstLinux(options: DialogOptions)
    ensures options.message != [] || options.detail.None? ==>
      MessageText(options) == LinuxDialog.BuildMessage(options)
    ensures options.message == [] && options.detail.Some? ==>
      MessageText(options) == "\n\n" + LinuxDialog.BuildMessage(options)
  {
  }

  // ---------------------------------------------------------------------
  // UTF-16

  predicate IsHighSurrogate(u: u16) { 0xD800 <= u < 0xDC00 }
  predicate IsLowSurrogate(u: u16) { 0xDC00 <= u < 0xE000 }

  /** The UTF-16 encoding of one character: one unit in the Basic
      Multilingual Plane, a surrogate pair above it. */
  function EncodeChar(c: char): (units: seq<u16>)
    ensures 1 <= |units| <= 2
    ensures |units| == 1 <==> (c as int) < 0x1_0000
    ensures |units| == 1 ==> !IsHighSurrogate(units[0]) && !IsLowSurrogate(units[0])
    ensures |units| == 2 ==> IsHighSurrogate(units[0]) && IsLowSurrogate(units[1])
    ensures 0 in units <==> c == '\0'
  {
    if (c as int) < 0x1_0000 then [c as int]
    else
      var v := c as int - 0x1_0000;
      [0xD800 + v / 0x400, 0xDC00 + v % 0x400]
  }

  /** `str::encode_utf16`. */
  function EncodeUtf16(s: string): (units: seq<u16>)
    ensures |units| >= |s|
  {
    if s == [] then [] else EncodeChar(s[0]) + EncodeUtf16(s[1..])
  }

  /** The units passed to `MessageBoxW`: the encoding with one 0 appended. */
  function WideNul(s: string): (units: seq<u16>)
    ensures |units| >= |s| + 1 && units[|units| - 1] == 0
    ensures '\0' !in s ==> 0 !in units[..|units| - 1]
  {
    assert (EncodeUtf16(s) + [0])[..|EncodeUtf16(s)|] == EncodeUtf16(s);
    if '\0' in s then EncodeUtf16(s) + [0]
    else NoNulEncodesWithoutZero(s); EncodeUtf16(s) + [0]
  }

  /** Decoding UTF-16; an unpaired surrogate is an error. */
  function DecodeUtf16(units: seq<u16>): Option<string>
    decreases |units|
  {
    if units == [] then Some([])
    else
      var u := units[0];
      if IsHighSurrogate(u) then
        if |units| >= 2 && IsLowSurrogate(units[1]) then
          var c := 0x1_0000 + (u as int - 0xD800) * 0x400 + (units[1] as int - 0xDC00);
          match DecodeUtf16(units[2..])
          case Some(rest) => Some([c as char] + rest)
          case None => None
        else None
      else if IsLowSurrogate(u) then None
      else
        match DecodeUtf16(units[1..])
        case Some(rest) => Some([u as char] + rest)
        case None => None
  }

  /** Decoding undoes encoding. */
  lemma {:induction false} DecodeEncode(s: string)
    ensures DecodeUtf16(EncodeUtf16(s)) == Some(s)
  {
    if s != [] {
      var head, tail := EncodeChar(s[0]), EncodeUtf16(s[1..]);
      var units := head + tail;
      DecodeEncode(s[1..]);
      if |head| == 1 {
        assert units[1..] == tail;
        assert (units[0] as char) == s[0];
      } else {
        assert units[2..] == tail;
        var v := s[0] as int - 0x1_0000;
        assert 0x1_0000 + (units[0] as int - 0xD800) * 0x400 + (units[1] as int - 0xDC00) == s[0] as int;
      }
      assert [s[0]] + s[1..] == s;
    }
  }

  /** A text with no NUL character encodes without 0 units. */
  lemma {:induction false} NoNulEncodesWithoutZero(s: string)
    requires '\0' !in s
    ensures 0 !in EncodeUtf16(s)
  {
    if s != [] {
      assert s[0] != '\0' && '\0' !in s[1..];
      NoNulEncodesWithoutZero(s[1..]);
    }
  }

  /** Read as a NUL-terminated wide string, the units handed to
      `MessageBoxW` give back exactly the text, when the text has no NUL
      character of its own: the appended 0 is the only one. */
  lemma WideNulReadsBack(s: string)
    requires '\0' !in s
    ensures var w := WideNul(s);
      && w[|w| - 1] == 0
      && 0 !in w[..|w| - 1]
      && DecodeUtf16(w[..|w| - 1]) == Some(s)
  {
    var w := WideNul(s);
    assert w[..|w| - 1] == EncodeUtf16(s);
    NoNulEncodesWithoutZero(s);
    DecodeEncode(s);
  }

  // ---------------------------------------------------------------------
  // Result

  /** The button index for the code `MessageBoxW` returns: OK and Yes are
      the first button, No the second, Cancel the last one (or the first
      when there are fewer than two), anything else the first. */
  function ResultIndex(code: int, count: nat): (idx: nat)
    ensures count >= 2 ==> idx < count
    ensures count < 2 && code != IDNO ==> idx == 0
  {
    if code == IDOK then 0
    else if code == IDCANCEL then (if count >= 2 then count - 1 else 0)
    else if code == IDYES then 0
    else if code == IDNO then 1
    else 0
  }

  /** Each button of a box with one to three buttons is reached by the code
      of the matching box button; with more than three, only the first,
      second and last can be chosen. */
  lemma ResultIndexCoversButtons(count: nat)
    ensures count == 1 ==> ResultIndex(IDOK, count) == 0
    ensures count == 2 ==> ResultIndex(IDOK, count) == 0 && ResultIndex(IDCANCEL, count) == 1
    ensures count >= 3 ==>
      && ResultIndex(IDYES, count) == 0 && ResultIndex(IDNO, count) == 1
      && ResultIndex(IDCANCEL, count) == count - 1
    ensures count >= 3 ==> forall code :: ResultIndex(code, count) in {0, 1, count - 1}
  {
  }

  /** `show_dialog_sync` with the return code as input. A box with one
      button or none has no No button, so it answers 0. */
  function ShowDialogSync(options: DialogOptions, code: int): (idx: nat)
    ensures |options.buttons| >= 2 ==> idx < |options.buttons|
    ensures |options.buttons| < 2 && code != IDNO ==> idx == 0
  {
    ResultIndex(code, |options.buttons|)
  }
}
