/** The Windows global-hotkey backend: key names to virtual-key codes,
    modifier flags to the RegisterHotKey modifier mask, and registration
    against the system-wide hotkey table, which is an explicit object. */
module WindowsHotkey {
  import opened Wrappers
  import opened Text
  import opened Keystrokes

  // ---------------------------------------------------------------------
  // Modifiers

  /** HOT_KEY_MODIFIERS bits. */
  const MOD_ALT: bv32 := 1
  const MOD_CONTROL: bv32 := 2
  const MOD_SHIFT: bv32 := 4
  const MOD_WIN: bv32 := 8

  /** `map_modifiers`: alt -> MOD_ALT, control -> MOD_CONTROL, shift ->
      MOD_SHIFT, platform -> MOD_WIN, one bit per flag and no other bit. */
  function MapModifiers(keystroke: Keystroke): (mods: bv32)
    ensures (mods & MOD_ALT != 0) == keystroke.alt
    ensures (mods & MOD_CONTROL != 0) == keystroke.control
    ensures (mods & MOD_SHIFT != 0) == keystroke.shift
    ensures (mods & MOD_WIN != 0) == keystroke.platform
    ensures mods & !(MOD_ALT | MOD_CONTROL | MOD_SHIFT | MOD_WIN) == 0
  {
    var mods0: bv32 := 0;
    var mods1 := if keystroke.alt then mods0 | MOD_ALT else mods0;
    var mods2 := if keystroke.control then mods1 | MOD_CONTROL else mods1;
    var mods3 := if keystroke.shift then mods2 | MOD_SHIFT else mods2;
    if keystroke.platform then mods3 | MOD_WIN else mods3
  }

  /** Two keystrokes with the same modifier flags get the same mask, and
      different flags give different masks. */
  lemma MapModifiersInjective(a: Keystroke, b: Keystroke)
    ensures MapModifiers(a) == MapModifiers(b) <==>
      a.alt == b.alt && a.control == b.control && a.shift == b.shift && a.platform == b.platform
  {
    var ma, mb := MapModifiers(a), MapModifiers(b);
    if ma == mb {
      assert (ma & MOD_ALT != 0) == (mb & MOD_ALT != 0);
      assert (ma & MOD_CONTROL != 0) == (mb & MOD_CONTROL != 0);
      assert (ma & MOD_SHIFT != 0) == (mb & MOD_SHIFT != 0);
      assert (ma & MOD_WIN != 0) == (mb & MOD_WIN != 0);
    }
  }

  // ---------------------------------------------------------------------
  // Key names

  /** Virtual-key codes the table names. */
  const VK_BACK: u16 := 0x08
  const VK_TAB: u16 := 0x09
  const VK_RETURN: u16 := 0x0D
  const VK_ESCAPE: u16 := 0x1B
  const VK_SPACE: u16 := 0x20
  const VK_PRIOR: u16 := 0x21
  const VK_NEXT: u16 := 0x22
  const VK_END: u16 := 0x23
  const VK_HOME: u16 := 0x24
  const VK_LEFT: u16 := 0x25
  const VK_UP: u16 := 0x26
  const VK_RIGHT: u16 := 0x27
  const VK_DOWN: u16 := 0x28
  const VK_INSERT: u16 := 0x2D
  const VK_DELETE: u16 := 0x2E
  const VK_F1: u16 := 0x70

  /** A string whose UTF-8 encoding is one byte long: one ASCII character. */
  predicate IsSingleByte(s: string)
  {
    |s| == 1 && s[0] as int < 0x80
  }

  function UnsupportedKeyError(name: string): string
  {
    "Unsupported key for global hotkey: " + name
  }

  /** `map_key_to_vk` as written: the table, compared case-insensitively;
      any other one-byte name maps to the code of its ASCII upper-case
      character; anything else is unsupported. */
  function MapKeyToVk(key: string): (r: Result<u16, string>)
    ensures r.Ok? ==> r.value < 0x80
    ensures r.Err? ==> r.error == UnsupportedKeyError(Lower(key))
    ensures IsSingleByte(Lower(key)) ==> r.Ok?
  {
    VkOfName(Lower(key))
  }

  /** The match of `map_key_to_vk`, on the lower-cased name. */
  function VkOfName(name: string): (r: Result<u16, string>)
    ensures r.Ok? ==> r.value < 0x80
    ensures r.Err? ==> r.error == UnsupportedKeyError(name) && !IsSingleByte(name)
  {
    match name
    case "a" => Ok(0x41)
    case "b" => Ok(0x42)
    case "c" => Ok(0x43)
    case "d" => Ok(0x44)
    case "e" => Ok(0x45)
    case "f" => Ok(0x46)
    case "g" => Ok(0x47)
    case "h" => Ok(0x48)
    case "i" => Ok(0x49)
    case "j" => Ok(0x4A)
    case "k" => Ok(0x4B)
    case "l" => Ok(0x4C)
    case "m" => Ok(0x4D)
    case "n" => Ok(0x4E)
    case "o" => Ok(0x4F)
    case "p" => Ok(0x50)
    case "q" => Ok(0x51)
    case "r" => Ok(0x52)
    case "s" => Ok(0x53)
    case "t" => Ok(0x54)
    case "u" => Ok(0x55)
    case "v" => Ok(0x56)
    case "w" => Ok(0x57)
    case "x" => Ok(0x58)
    case "y" => Ok(0x59)
    case "z" => Ok(0x5A)
    case "0" => Ok(0x30)
    case "1" => Ok(0x31)
    case "2" => Ok(0x32)
    case "3" => Ok(0x33)
    case "4" => Ok(0x34)
    case "5" => Ok(0x35)
    case "6" => Ok(0x36)
    case "7" => Ok(0x37)
    case "8" => Ok(0x38)
    case "9" => Ok(0x39)
    case "f1" => Ok(VK_F1)
    case "f2" => Ok(VK_F1 + 1)
    case "f3" => Ok(VK_F1 + 2)
    case "f4" => Ok(VK_F1 + 3)
    case "f5" => Ok(VK_F1 + 4)
    case "f6" => Ok(VK_F1 + 5)
    case "f7" => Ok(VK_F1 + 6)
    case "f8" => Ok(VK_F1 + 7)
    case "f9" => Ok(VK_F1 + 8)
    case "f10" => Ok(VK_F1 + 9)
    case "f11" => Ok(VK_F1 + 10)
    case "f12" => Ok(VK_F1 + 11)
    case "space" | " " => Ok(VK_SPACE)
    case "enter" | "return" => Ok(VK_RETURN)
    case "tab" => Ok(VK_TAB)
    case "escape" | "esc" => Ok(VK_ESCAPE)
    case "backspace" => Ok(VK_BACK)
    case "delete" => Ok(VK_DELETE)
    case "insert" => Ok(VK_INSERT)
    case "home" => Ok(VK_HOME)
    case "end" => Ok(VK_END)
    case "pageup" => Ok(VK_PRIOR)
    case "pagedown" => Ok(VK_NEXT)
    case "up" => Ok(VK_UP)
    case "down" => Ok(VK_DOWN)
    case "left" => Ok(VK_LEFT)
    case "right" => Ok(VK_RIGHT)
    case other =>
      if IsSingleByte(other) then Ok(AsciiUpper(other[0]) as int)
      else Err(UnsupportedKeyError(other))
  }

  /** Multi-character names the table knows, lower-case. */
  const NamedKeys: set<string> := {
      "f1", "f2", "f3", "f4", "f5", "f6", "f7", "f8", "f9", "f10", "f11", "f12",
      "space", "enter", "return", "tab", "escape", "esc", "backspace", "delete",
      "insert", "home", "end", "pageup", "pagedown", "up", "down", "left", "right"
  }

  /** Lookup ignores case. */
  lemma VkCaseInsensitive(key: string)
    ensures MapKeyToVk(key) == MapKeyToVk(Lower(key))
  {
    LowerIdempotent(key);
  }

  /** A letter of either case maps to 0x41 plus its place in the
      alphabet; a digit to its ASCII code. */
  lemma VkOfLetterOrDigit(c: char)
    requires 'a' <= c <= 'z' || 'A' <= c <= 'Z' || '0' <= c <= '9'
    ensures 'a' <= c <= 'z' ==> MapKeyToVk([c]) == Ok(0x41 + (c as int - 'a' as int))
    ensures 'A' <= c <= 'Z' ==> MapKeyToVk([c]) == Ok(0x41 + (c as int - 'A' as int))
    ensures '0' <= c <= '9' ==> MapKeyToVk([c]) == Ok(c as int)
  {
    assert Lower([c]) == [LowerChar(c)];
    if '0' <= c <= '9' {
      VkOfDigitName(c);
    } else {
      VkOfLetterName(LowerChar(c));
    }
  }

  lemma VkOfLetterName(c: char)
    requires 'a' <= c <= 'z'
    ensures VkOfName([c]) == Ok(0x41 + (c as int - 'a' as int))
  {
  }

  lemma VkOfDigitName(c: char)
    requires '0' <= c <= '9'
    ensures VkOfName([c]) == Ok(c as int)
  {
  }

  const FunctionKeyNames: seq<string> :=
    ["f1", "f2", "f3", "f4", "f5", "f6", "f7", "f8", "f9", "f10", "f11", "f12"]

  /** f1 .. f12 map to VK_F1 .. VK_F12 in order. */
  lemma VkOfFunctionKey(n: nat)
    requires n < |FunctionKeyNames|
    ensures MapKeyToVk(FunctionKeyNames[n]) == Ok(VK_F1 + n)
  {
    LowerOfLowerCase(FunctionKeyNames[n]);
    VkOfFunctionKeyName(n);
  }

  lemma VkOfFunctionKeyName(n: nat)
    requires n < |FunctionKeyNames|
    ensures VkOfName(FunctionKeyNames[n]) == Ok(VK_F1 + n)
  {
  }

  /** "space" and " " both name the space bar. */
  lemma SpaceAlias()
    ensures MapKeyToVk("space") == MapKeyToVk(" ") == Ok(VK_SPACE)
  {
    LowerOfLowerCase("space");
    LowerOfLowerCase(" ");
    assert VkOfName("space") == Ok(VK_SPACE);
  }

  /** "enter" and "return" both name the Enter key. */
  lemma ReturnAlias()
    ensures MapKeyToVk("enter") == MapKeyToVk("return") == Ok(VK_RETURN)
  {
    LowerOfLowerCase("enter");
    LowerOfLowerCase("return");
    assert VkOfName("enter") == Ok(VK_RETURN);
  }

  /** "escape" and "esc" both name the Escape key. */
  lemma EscapeAlias()
    ensures MapKeyToVk("escape") == MapKeyToVk("esc") == Ok(VK_ESCAPE)
  {
    LowerOfLowerCase("escape");
    LowerOfLowerCase("esc");
    assert VkOfName("escape") == Ok(VK_ESCAPE);
  }

  /** A name is rejected exactly when, lower-cased, it is neither one
      ASCII character nor one of the multi-character names; every one-byte
      name that is not in the table maps to its ASCII upper-case code. */
  lemma VkErrorExactly(key: string)
    ensures MapKeyToVk(key).Err? <==> !IsSingleByte(Lower(key)) && Lower(key) !in NamedKeys
    ensures MapKeyToVk(key).Err? ==> MapKeyToVk(key).error == UnsupportedKeyError(Lower(key))
  {
    var name := Lower(key);
    if IsSingleByte(name) {
      assert |name| == 1;
    } else if name in NamedKeys {
      NamedKeysMapped(key);
    }
  }

  lemma NamedKeysMapped(key: string)
    requires Lower(key) in NamedKeys
    ensures MapKeyToVk(key).Ok?
  {
  }

  // The fallback gives punctuation the virtual-key codes of other keys.

  /** "-" registers the Insert key. */
  lemma MinusIsInsert()
    ensures MapKeyToVk("-") == MapKeyToVk("insert") == Ok(VK_INSERT)
  {
    LowerOfLowerCase("-");
    assert VkOfName("-") == Ok(VK_INSERT);
    LowerOfLowerCase("insert");
    assert VkOfName("insert") == Ok(VK_INSERT);
  }

  /** "." registers the Delete key. */
  lemma PeriodIsDelete()
    ensures MapKeyToVk(".") == MapKeyToVk("delete") == Ok(VK_DELETE)
  {
    LowerOfLowerCase(".");
    assert VkOfName(".") == Ok(VK_DELETE);
    LowerOfLowerCase("delete");
    assert VkOfName("delete") == Ok(VK_DELETE);
  }

  /** "'" registers the Right arrow key. */
  lemma QuoteIsRightArrow()
    ensures MapKeyToVk("'") == MapKeyToVk("right") == Ok(VK_RIGHT)
  {
    LowerOfLowerCase("'");
    assert VkOfName("'") == Ok(VK_RIGHT);
    LowerOfLowerCase("right");
    assert VkOfName("right") == Ok(VK_RIGHT);
  }

  /** The punctuation characters the key table of the Linux backend also
      accepts, with their US-layout VK_OEM codes. */
  const PunctuationKeys: set<string> := {"-", "=", "[", "]", "\\", ";", "'", "`", ",", ".", "/"}

  /** `map_key_to_vk` with punctuation mapped to its VK_OEM key and every
      other name outside the table rejected. */
  function MapKeyToVkCorrected(key: string): Result<u16, string>
  {
    VkOfNameCorrected(Lower(key))
  }

  function VkOfNameCorrected(name: string): (r: Result<u16, string>)
    ensures r.Ok? ==> (r.value >= 0xBA <==> name in PunctuationKeys)
  {
    match name
    case "a" => Ok(0x41)
    case "b" => Ok(0x42)
    case "c" => Ok(0x43)
    case "d" => Ok(0x44)
    case "e" => Ok(0x45)
    case "f" => Ok(0x46)
    case "g" => Ok(0x47)
    case "h" => Ok(0x48)
    case "i" => Ok(0x49)
    case "j" => Ok(0x4A)
    case "k" => Ok(0x4B)
    case "l" => Ok(0x4C)
    case "m" => Ok(0x4D)
    case "n" => Ok(0x4E)
    case "o" => Ok(0x4F)
    case "p" => Ok(0x50)
    case "q" => Ok(0x51)
    case "r" => Ok(0x52)
    case "s" => Ok(0x53)
    case "t" => Ok(0x54)
    case "u" => Ok(0x55)
    case "v" => Ok(0x56)
    case "w" => Ok(0x57)
    case "x" => Ok(0x58)
    case "y" => Ok(0x59)
    case "z" => Ok(0x5A)
    case "0" => Ok(0x30)
    case "1" => Ok(0x31)
    case "2" => Ok(0x32)
    case "3" => Ok(0x33)
    case "4" => Ok(0x34)
    case "5" => Ok(0x35)
    case "6" => Ok(0x36)
    case "7" => Ok(0x37)
    case "8" => Ok(0x38)
    case "9" => Ok(0x39)
    case "f1" => Ok(VK_F1)
    case "f2" => Ok(VK_F1 + 1)
    case "f3" => Ok(VK_F1 + 2)
    case "f4" => Ok(VK_F1 + 3)
    case "f5" => Ok(VK_F1 + 4)
    case "f6" => Ok(VK_F1 + 5)
    case "f7" => Ok(VK_F1 + 6)
    case "f8" => Ok(VK_F1 + 7)
    case "f9" => Ok(VK_F1 + 8)
    case "f10" => Ok(VK_F1 + 9)
    case "f11" => Ok(VK_F1 + 10)
    case "f12" => Ok(VK_F1 + 11)
    case "space" | " " => Ok(VK_SPACE)
    case "enter" | "return" => Ok(VK_RETURN)
    case "tab" => Ok(VK_TAB)
    case "escape" | "esc" => Ok(VK_ESCAPE)
    case "backspace" => Ok(VK_BACK)
    case "delete" => Ok(VK_DELETE)
    case "insert" => Ok(VK_INSERT)
    case "home" => Ok(VK_HOME)
    case "end" => Ok(VK_END)
    case "pageup" => Ok(VK_PRIOR)
    case "pagedown" => Ok(VK_NEXT)
    case "up" => Ok(VK_UP)
    case "down" => Ok(VK_DOWN)
    case "left" => Ok(VK_LEFT)
    case "right" => Ok(VK_RIGHT)
    case "-" => Ok(0xBD)
    case "=" => Ok(0xBB)
    case "[" => Ok(0xDB)
    case "]" => Ok(0xDD)
    case "\\" => Ok(0xDC)
    case ";" => Ok(0xBA)
    case "'" => Ok(0xDE)
    case "`" => Ok(0xC0)
    case "," => Ok(0xBC)
    case "." => Ok(0xBE)
    case "/" => Ok(0xBF)
    case other => Err(UnsupportedKeyError(other))
  }

  /** With the corrected mapping a punctuation key never shares its code
      with a key that is not punctuation. */
  lemma CorrectedPunctuationIsDistinct(p: string, k: string)
    requires Lower(p) in PunctuationKeys && Lower(k) !in PunctuationKeys
    requires MapKeyToVkCorrected(p).Ok? && MapKeyToVkCorrected(k).Ok?
    ensures MapKeyToVkCorrected(p).value != MapKeyToVkCorrected(k).value
  {
    assert MapKeyToVkCorrected(p).value >= 0xBA;
    assert MapKeyToVkCorrected(k).value < 0xBA;
  }

  /** Outside the punctuation, the corrected mapping agrees with the
      original wherever the original names a key from its table. */
  lemma CorrectedAgreesOnTable(key: string)
    requires !IsSingleByte(Lower(key)) || TableChar(Lower(key)[0])
    ensures MapKeyToVkCorrected(key) == MapKeyToVk(key)
  {
    var name := Lower(key);
    if IsSingleByte(name) {
      assert name == [name[0]];
      var c := name[0];
      if 'a' <= c <= 'z' {
        CorrectedAgreesOnLetter(c);
      } else if '0' <= c <= '9' {
        CorrectedAgreesOnDigit(c);
      }
    } else {
      CorrectedAgreesOnLongName(name);
    }
  }

  /** The one-character names of the table: letters, digits and the space. */
  predicate TableChar(c: char)
  {
    'a' <= c <= 'z' || '0' <= c <= '9' || c == ' '
  }

  lemma CorrectedAgreesOnLetter(c: char)
    requires 'a' <= c <= 'z'
    ensures VkOfNameCorrected([c]) == VkOfName([c])
  {
  }

  lemma CorrectedAgreesOnDigit(c: char)
    requires '0' <= c <= '9'
    ensures VkOfNameCorrected([c]) == VkOfName([c])
  {
  }

  lemma CorrectedAgreesOnLongName(name: string)
    requires !IsSingleByte(name)
    ensures VkOfNameCorrected(name) == VkOfName(name)
  {
    assert name !in PunctuationKeys;
  }

  // ---------------------------------------------------------------------
  // Registration

  /** One hotkey in the system-wide table: the window it posts to, its id,
      and its key combination. A window handle is an opaque number. */
  datatype HotkeyEntry = HotkeyEntry(hwnd: nat, id: i32, modifiers: bv32, vk: u16)

  /** The system message for ERROR_HOTKEY_ALREADY_REGISTERED. */
  const HOTKEY_ALREADY_REGISTERED: string := "Hot key is already registered."

  function RegisterFailedError(id: u32): string
  {
    "Failed to register hotkey " + DecimalString(id) + ": " + HOTKEY_ALREADY_REGISTERED
  }

  /** The system-wide hotkey table behind RegisterHotKey and
      UnregisterHotKey. */
  class HotkeyTable {
    var entries: set<HotkeyEntry>

    constructor ()
      ensures entries == {}
    {
      entries := {};
    }

    /** Some hotkey already uses this key combination. */
    predicate Taken(modifiers: bv32, vk: u16)
      reads this
    {
      exists e :: e in entries && e.modifiers == modifiers && e.vk == vk
    }

    /** RegisterHotKey: fails when the combination is taken; otherwise adds
        the hotkey (an earlier one with the same window and id is kept). */
    method RegisterHotKey(hwnd: nat, id: i32, modifiers: bv32, vk: u16) returns (ok: bool)
      modifies this
      ensures ok == !old(Taken(modifiers, vk))
      ensures entries == if ok then old(entries) + {HotkeyEntry(hwnd, id, modifiers, vk)} else old(entries)
    {
      ok := !Taken(modifiers, vk);
      if ok {
        entries := entries + {HotkeyEntry(hwnd, id, modifiers, vk)};
      }
    }

    /** UnregisterHotKey: removes the window's hotkeys with that id and
        reports whether there were any. */
    method UnregisterHotKey(hwnd: nat, id: i32) returns (ok: bool)
      modifies this
      ensures entries == set e | e in old(entries) && !(e.hwnd == hwnd && e.id == id)
      ensures ok == exists e :: e in old(entries) && e.hwnd == hwnd && e.id == id
    {
      ok := exists e :: e in entries && e.hwnd == hwnd && e.id == id;
      entries := set e | e in entries && !(e.hwnd == hwnd && e.id == id);
    }
  }

  /** `register`: the modifiers are mapped, then the key; a key that does
      not map fails before the table is touched. The id is passed to the
      system as `id as i32`. */
  method Register(table: HotkeyTable, hwnd: nat, id: u32, keystroke: Keystroke) returns (r: Result<(), string>)
    modifies table
    ensures MapKeyToVk(keystroke.key).Err? ==>
      r == Err(MapKeyToVk(keystroke.key).error) && table.entries == old(table.entries)
    ensures MapKeyToVk(keystroke.key).Ok? && old(table.Taken(MapModifiers(keystroke), MapKeyToVk(keystroke.key).value)) ==>
      r == Err(RegisterFailedError(id)) && table.entries == old(table.entries)
    ensures MapKeyToVk(keystroke.key).Ok? && !old(table.Taken(MapModifiers(keystroke), MapKeyToVk(keystroke.key).value)) ==>
      r == Ok(()) &&
      table.entries == old(table.entries) +
        {HotkeyEntry(hwnd, U32AsI32(id), MapModifiers(keystroke), MapKeyToVk(keystroke.key).value)}
  {
    var modifiers := MapModifiers(keystroke);
    var vk := MapKeyToVk(keystroke.key);
    if vk.Err? {
      return Err(vk.error);
    }
    var ok := table.RegisterHotKey(hwnd, U32AsI32(id), modifiers, vk.value);
    if !ok {
      return Err(RegisterFailedError(id));
    }
    r := Ok(());
  }

  /** `unregister`: asks the system to drop the hotkey and ignores the
      answer, so it reports nothing even for an id never registered. */
  method Unregister(table: HotkeyTable, hwnd: nat, id: u32)
    modifies table
    ensures table.entries == set e | e in old(table.entries) && !(e.hwnd == hwnd && e.id == U32AsI32(id))
  {
    var _ := table.UnregisterHotKey(hwnd, U32AsI32(id));
  }
}
