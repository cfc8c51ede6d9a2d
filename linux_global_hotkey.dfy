/** The Linux global-hotkey backends: the bookkeeping registry they share,
    the X11 backend that resolves a keystroke to a (keycode, modifier mask)
    passive grab on the root window, and the Wayland backend, which has no
    way to register a global hotkey. The X server is an explicit object:
    its keyboard-mapping reply, the grabs this client holds, and the grabs
    other clients hold. */
module LinuxHotkey {
  import opened Wrappers
  import opened Text
  import opened Keystrokes

  // ---------------------------------------------------------------------
  // Bookkeeping

  /** `LinuxGlobalHotkey`: the id -> keystroke map of registered hotkeys. */
  class LinuxGlobalHotkey {
    var registered: map<u32, Keystroke>

    constructor ()
      ensures registered == map[]
    {
      registered := map[];
    }

    /** Never fails; the last registration of an id wins. */
    method Register(id: u32, keystroke: Keystroke) returns (r: Result<(), string>)
      modifies this
      ensures r == Ok(())
      ensures registered == old(registered)[id := keystroke]
    {
      registered := registered[id := keystroke];
      r := Ok(());
    }

    /** Removes `id` if present; an absent id is a no-op. */
    method Unregister(id: u32)
      modifies this
      ensures registered == old(registered) - {id}
    {
      registered := registered - {id};
    }
  }

  // ---------------------------------------------------------------------
  // X11 modifier mask

  /** Bits of the X protocol's SETofKEYMASK. */
  const SHIFT: bv16 := 1
  const CONTROL: bv16 := 4
  const M1: bv16 := 8
  const M4: bv16 := 64

  /** The modifier mask for a keystroke: control -> Control, alt -> Mod1,
      shift -> Shift, platform (Super) -> Mod4, and no other bit. Each flag
      decides its own bit, so the mask does not depend on the order in
      which the bits are or-ed in. */
  function KeystrokeToX11Modmask(keystroke: Keystroke): (mask: bv16)
    ensures (mask & CONTROL != 0) == keystroke.control
    ensures (mask & M1 != 0) == keystroke.alt
    ensures (mask & SHIFT != 0) == keystroke.shift
    ensures (mask & M4 != 0) == keystroke.platform
    ensures mask & !(CONTROL | M1 | SHIFT | M4) == 0
  {
    var mask0: bv16 := 0;
    var mask1 := if keystroke.control then mask0 | CONTROL else mask0;
    var mask2 := if keystroke.alt then mask1 | M1 else mask1;
    var mask3 := if keystroke.shift then mask2 | SHIFT else mask2;
    if keystroke.platform then mask3 | M4 else mask3
  }

  // ---------------------------------------------------------------------
  // Key names to keysyms

  /** The keysym of a key name, compared case-insensitively (values from
      the KEYSYM encoding of the X Window System Protocol, Appendix A). */
  function KeyNameToKeysym(key: string): Option<u32>
  {
    match Lower(key)
    case "a" => Some(0x61)
    case "b" => Some(0x62)
    case "c" => Some(0x63)
    case "d" => Some(0x64)
    case "e" => Some(0x65)
    case "f" => Some(0x66)
    case "g" => Some(0x67)
    case "h" => Some(0x68)
    case "i" => Some(0x69)
    case "j" => Some(0x6a)
    case "k" => Some(0x6b)
    case "l" => Some(0x6c)
    case "m" => Some(0x6d)
    case "n" => Some(0x6e)
    case "o" => Some(0x6f)
    case "p" => Some(0x70)
    case "q" => Some(0x71)
    case "r" => Some(0x72)
    case "s" => Some(0x73)
    case "t" => Some(0x74)
    case "u" => Some(0x75)
    case "v" => Some(0x76)
    case "w" => Some(0x77)
    case "x" => Some(0x78)
    case "y" => Some(0x79)
    case "z" => Some(0x7a)
    case "0" => Some(0x30)
    case "1" => Some(0x31)
    case "2" => Some(0x32)
    case "3" => Some(0x33)
    case "4" => Some(0x34)
    case "5" => Some(0x35)
    case "6" => Some(0x36)
    case "7" => Some(0x37)
    case "8" => Some(0x38)
    case "9" => Some(0x39)
    case "space" => Some(0x20)
    case "enter" | "return" => Some(0xff0d)
    case "tab" => Some(0xff09)
    case "escape" => Some(0xff1b)
    case "backspace" => Some(0xff08)
    case "delete" => Some(0xffff)
    case "insert" => Some(0xff63)
    case "home" => Some(0xff50)
    case "end" => Some(0xff57)
    case "pageup" => Some(0xff55)
    case "pagedown" => Some(0xff56)
    case "left" => Some(0xff51)
    case "up" => Some(0xff52)
    case "right" => Some(0xff53)
    case "down" => Some(0xff54)
    case "f1" => Some(0xffbe)
    case "f2" => Some(0xffbf)
    case "f3" => Some(0xffc0)
    case "f4" => Some(0xffc1)
    case "f5" => Some(0xffc2)
    case "f6" => Some(0xffc3)
    case "f7" => Some(0xffc4)
    case "f8" => Some(0xffc5)
    case "f9" => Some(0xffc6)
    case "f10" => Some(0xffc7)
    case "f11" => Some(0xffc8)
    case "f12" => Some(0xffc9)
    case "-" => Some(0x2d)
    case "=" => Some(0x3d)
    case "[" => Some(0x5b)
    case "]" => Some(0x5d)
    case "\\" => Some(0x5c)
    case ";" => Some(0x3b)
    case "'" => Some(0x27)
    case "`" => Some(0x60)
    case "," => Some(0x2c)
    case "." => Some(0x2e)
    case "/" => Some(0x2f)
    case _ => None
  }

  /** The names the keysym table knows, lower-case, by group. */
  const LetterNames: set<string> := {
      "a", "b", "c", "d", "e", "f", "g", "h", "i", "j", "k", "l", "m",
      "n", "o", "p", "q", "r", "s", "t", "u", "v", "w", "x", "y", "z"
  }
  const DigitNames: set<string> := {"0", "1", "2", "3", "4", "5", "6", "7", "8", "9"}
  const EditingKeyNames: set<string> := {
      "space", "enter", "return", "tab", "escape", "backspace", "delete", "insert",
      "home", "end", "pageup", "pagedown", "left", "up", "right", "down"
  }
  const FunctionKeyNames: set<string> := {"f1", "f2", "f3", "f4", "f5", "f6", "f7", "f8", "f9", "f10", "f11", "f12"}
  const PunctuationNames: set<string> := {"-", "=", "[", "]", "\\", ";", "'", "`", ",", ".", "/"}
  const X11KeyNames: set<string> :=
    LetterNames + DigitNames + EditingKeyNames + FunctionKeyNames + PunctuationNames

  /** Every name of a group has a keysym. */
  lemma GroupHasKeysyms(key: string, group: set<string>)
    requires group in {LetterNames, DigitNames, EditingKeyNames, FunctionKeyNames, PunctuationNames}
    requires Lower(key) in group
    ensures KeyNameToKeysym(key).Some?
  {
  }

  lemma KeysymOnlyForTableNames(key: string)
    ensures KeyNameToKeysym(key).Some? ==> Lower(key) in X11KeyNames
  {
    match Lower(key)
    case "a" | "b" | "c" | "d" | "e" | "f" | "g" | "h" | "i" | "j" | "k" | "l" | "m" | "n" | "o" | "p" | "q" | "r" | "s" | "t" | "u" | "v" | "w" | "x" | "y" | "z" => assert Lower(key) in LetterNames;
    case "0" | "1" | "2" | "3" | "4" | "5" | "6" | "7" | "8" | "9" => assert Lower(key) in DigitNames;
    case "space" | "enter" | "return" | "tab" | "escape" | "backspace" | "delete" | "insert" | "home" | "end" | "pageup" | "pagedown" | "left" | "up" | "right" | "down" => assert Lower(key) in EditingKeyNames;
    case "f1" | "f2" | "f3" | "f4" | "f5" | "f6" | "f7" | "f8" | "f9" | "f10" | "f11" | "f12" => assert Lower(key) in FunctionKeyNames;
    case "-" | "=" | "[" | "]" | "\\" | ";" | "'" | "`" | "," | "." | "/" => assert Lower(key) in PunctuationNames;
    case _ =>
  }

  /** The table is defined exactly on its names: any other name, after
      lower-casing, has no keysym. */
  lemma KeysymDefinedExactlyOnTable(key: string)
    ensures KeyNameToKeysym(key).Some? <==> Lower(key) in X11KeyNames
  {
    KeysymOnlyForTableNames(key);
    var name := Lower(key);
    if name in LetterNames {
      GroupHasKeysyms(key, LetterNames);
    } else if name in DigitNames {
      GroupHasKeysyms(key, DigitNames);
    } else if name in EditingKeyNames {
      GroupHasKeysyms(key, EditingKeyNames);
    } else if name in FunctionKeyNames {
      GroupHasKeysyms(key, FunctionKeyNames);
    } else if name in PunctuationNames {
      GroupHasKeysyms(key, PunctuationNames);
    }
  }

  /** Lookup ignores case. */
  lemma KeysymCaseInsensitive(key: string)
    ensures KeyNameToKeysym(key) == KeyNameToKeysym(Lower(key))
  {
    LowerIdempotent(key);
  }

  predicate IsAsciiAlphanumeric(c: char)
  {
    'a' <= c <= 'z' || 'A' <= c <= 'Z' || '0' <= c <= '9'
  }

  /** A letter (of either case) or a digit maps to the ASCII code of its
      lower-case form. */
  lemma KeysymOfLetterOrDigit(c: char)
    requires IsAsciiAlphanumeric(c)
    ensures KeyNameToKeysym([c]) == Some(LowerChar(c) as int)
  {
    assert Lower([c]) == [LowerChar(c)];
  }

  /** "enter" and "return" are the same key, in any case. */
  lemma EnterIsReturn(key: string)
    requires Lower(key) == "enter" || Lower(key) == "return"
    ensures KeyNameToKeysym(key) == Some(0xff0d)
  {
  }

  // ---------------------------------------------------------------------
  // Keysyms to keycodes

  /** The keyboard mapping as the client receives it: the keycode range from
      the connection setup, and the GetKeyboardMapping reply for that whole
      range (section 5, "Keyboards", of the X Window System Protocol). */
  datatype KeyboardMapping = KeyboardMapping(
    minKeycode: u8,
    maxKeycode: u8,
    keysymsPerKeycode: u8,
    keysyms: seq<u32>)

  /** What the protocol guarantees: 8 <= min <= max, and the reply lists
      `keysymsPerKeycode` symbols for each keycode of the range. */
  predicate WellFormed(m: KeyboardMapping)
  {
    8 <= m.minKeycode <= m.maxKeycode &&
    |m.keysyms| == (m.maxKeycode - m.minKeycode + 1) * m.keysymsPerKeycode
  }

  function KeycodeCount(m: KeyboardMapping): nat
    requires WellFormed(m)
  {
    m.maxKeycode - m.minKeycode + 1
  }

  lemma RowWithin(row: nat, count: nat, per: nat)
    requires row < count
    ensures row * per + per <= count * per
  {
    assert count * per == row * per + per + (count - row - 1) * per;
  }

  /** Row `row` of the reply (the symbols of keycode min + row) contains
      `keysym`. */
  predicate RowHasKeysym(m: KeyboardMapping, row: nat, keysym: u32)
    requires WellFormed(m) && row < KeycodeCount(m)
  {
    RowWithin(row, KeycodeCount(m), m.keysymsPerKeycode);
    keysym in m.keysyms[row * m.keysymsPerKeycode..row * m.keysymsPerKeycode + m.keysymsPerKeycode]
  }

  /** The first row at or after `row` that contains `keysym`. */
  function FirstRowFrom(m: KeyboardMapping, keysym: u32, row: nat): (r: Option<nat>)
    requires WellFormed(m) && row <= KeycodeCount(m)
    ensures r.Some? ==> row <= r.value < KeycodeCount(m) && RowHasKeysym(m, r.value, keysym)
    ensures forall k :: row <= k < KeycodeCount(m) && (r.None? || k < r.value) ==> !RowHasKeysym(m, k, keysym)
    decreases KeycodeCount(m) - row
  {
    if row == KeycodeCount(m) then None
    else if RowHasKeysym(m, row, keysym) then Some(row)
    else FirstRowFrom(m, keysym, row + 1)
  }

  /** The keycode a keystroke is grabbed on: none when the key name is
      unknown, the mapping request failed, or the reply lists no symbols
      per keycode; otherwise the keycode of the first row holding the
      keysym, if any. */
  function X11Keycode(keystroke: Keystroke, mapping: Option<KeyboardMapping>): (r: Option<u8>)
    requires mapping.Some? ==> WellFormed(mapping.value)
    ensures r.Some? ==> mapping.Some? && mapping.value.minKeycode <= r.value <= mapping.value.maxKeycode
  {
    match KeyNameToKeysym(keystroke.key)
    case None => None
    case Some(keysym) =>
      if mapping.None? || mapping.value.keysymsPerKeycode == 0 then None
      else
        match FirstRowFrom(mapping.value, keysym, 0)
        case None => None
        case Some(row) => Some(mapping.value.minKeycode + row)
  }

  /** The keycode found is the lowest one whose row holds the key's keysym,
      and there is none exactly when the name is unknown, the mapping is
      missing, or no row holds the keysym. */
  lemma X11KeycodeIsFirstHolder(keystroke: Keystroke, mapping: Option<KeyboardMapping>)
    requires mapping.Some? ==> WellFormed(mapping.value)
    ensures var r := X11Keycode(keystroke, mapping);
      r.Some? ==>
        && KeyNameToKeysym(keystroke.key).Some?
        && mapping.Some?
        && RowHasKeysym(mapping.value, r.value - mapping.value.minKeycode, KeyNameToKeysym(keystroke.key).value)
        && forall k :: 0 <= k < r.value - mapping.value.minKeycode ==>
             !RowHasKeysym(mapping.value, k, KeyNameToKeysym(keystroke.key).value)
    ensures X11Keycode(keystroke, mapping).None? <==>
      || KeyNameToKeysym(keystroke.key).None?
      || mapping.None?
      || forall k :: 0 <= k < KeycodeCount(mapping.value) ==>
           !RowHasKeysym(mapping.value, k, KeyNameToKeysym(keystroke.key).value)
  {
    if KeyNameToKeysym(keystroke.key).Some? && mapping.Some? && mapping.value.keysymsPerKeycode == 0 {
      var m := mapping.value;
      forall k | 0 <= k < KeycodeCount(m)
        ensures !RowHasKeysym(m, k, KeyNameToKeysym(keystroke.key).value)
      {
        assert m.keysyms[k * 0..k * 0 + 0] == [];
      }
    }
  }

  /** The inner loop of `keystroke_to_x11_keycode`: symbol by symbol
      through one row of the reply. */
  method ScanRow(m: KeyboardMapping, row: nat, keysym: u32) returns (found: bool)
    requires WellFormed(m) && row < KeycodeCount(m)
    ensures found == RowHasKeysym(m, row, keysym)
  {
    var per := m.keysymsPerKeycode;
    RowWithin(row, KeycodeCount(m), per);
    var base := row * per;
    ghost var slice := m.keysyms[base..base + per];
    var j := 0;
    while j < per
      invariant 0 <= j <= per
      invariant keysym !in slice[..j]
    {
      if m.keysyms[base + j] == keysym {
        assert slice[j] == keysym;
        return true;
      }
      assert slice[..j + 1] == slice[..j] + [slice[j]];
      j := j + 1;
    }
    assert slice[..per] == slice;
    return false;
  }

  /** `keystroke_to_x11_keycode`: the row-major scan of the reply, row by
      row, returning at the first row that holds the keysym. */
  method KeystrokeToX11Keycode(keystroke: Keystroke, mapping: Option<KeyboardMapping>) returns (r: Option<u8>)
    requires mapping.Some? ==> WellFormed(mapping.value)
    ensures r == X11Keycode(keystroke, mapping)
  {
    var keysym := KeyNameToKeysym(keystroke.key);
    if keysym.None? {
      return None;
    }
    if mapping.None? {
      return None;
    }
    var m := mapping.value;
    if m.keysymsPerKeycode == 0 {
      return None;
    }
    var count := m.maxKeycode - m.minKeycode + 1;
    var i := 0;
    while i < count
      invariant 0 <= i <= count
      invariant FirstRowFrom(m, keysym.value, 0) == FirstRowFrom(m, keysym.value, i)
    {
      var found := ScanRow(m, i, keysym.value);
      if found {
        return Some(m.minKeycode + i);
      }
      i := i + 1;
    }
    return None;
  }

  // ---------------------------------------------------------------------
  // The X server and the X11 backend

  /** A passive grab on the root window: keycode and modifier mask. */
  datatype Grab = Grab(keycode: u8, modmask: bv16)

  /** The grab a keystroke is registered with, if its keycode resolves. */
  function X11Grab(keystroke: Keystroke, mapping: Option<KeyboardMapping>): Option<Grab>
    requires mapping.Some? ==> WellFormed(mapping.value)
  {
    match X11Keycode(keystroke, mapping)
    case None => None
    case Some(keycode) => Some(Grab(keycode, KeystrokeToX11Modmask(keystroke)))
  }

  /** The error text `register` reports when no keycode carries the key. */
  function UnresolvedKeyError(key: string): string
  {
    "Could not resolve keycode for key: " + key
  }

  /** The error a GrabKey request draws when another client already holds
      the same key combination (Access, section 10 of the X Window System
      Protocol, request GrabKey). */
  const ACCESS_ERROR: string := "X11 error: Access"

  /** The part of the X server the backend talks to: the keyboard-mapping
      reply it would send (None when the request fails), the grabs held by
      other clients, and the grabs held by this client on the root window. */
  class XServer {
    const mapping: Option<KeyboardMapping>
    const foreign: set<Grab>
    var grabs: set<Grab>

    constructor (mapping: Option<KeyboardMapping>, foreign: set<Grab>)
      requires mapping.Some? ==> WellFormed(mapping.value)
      ensures this.mapping == mapping && this.foreign == foreign && grabs == {}
    {
      this.mapping := mapping;
      this.foreign := foreign;
      grabs := {};
    }

    /** GrabKey: refused when another client holds the combination;
        otherwise the grab is held (a repeated grab by this client is
        accepted and changes nothing). */
    method GrabKey(g: Grab) returns (ok: bool)
      modifies this
      ensures ok == (g !in foreign)
      ensures grabs == if ok then old(grabs) + {g} else old(grabs)
    {
      ok := g !in foreign;
      if ok {
        grabs := grabs + {g};
      }
    }

    /** UngrabKey: releases the grab if held; never fails. */
    method UngrabKey(g: Grab)
      modifies this
      ensures grabs == old(grabs) - {g}
    {
      grabs := grabs - {g};
    }
  }

  /** `X11GlobalHotkey`: the shared registry plus, per id, the grab it was
      registered with. */
  class X11GlobalHotkey {
    const inner: LinuxGlobalHotkey
    var keycodes: map<u32, Grab>

    constructor ()
      ensures fresh(inner) && inner.registered == map[] && keycodes == map[]
    {
      inner := new LinuxGlobalHotkey();
      keycodes := map[];
    }

    /** No grab is held on the server that no registered id accounts for. */
    predicate NoLeakedGrab(x: XServer)
      reads this, x
    {
      x.grabs <= keycodes.Values
    }

    /** `register` as written: resolve the keycode (failing with the
        key's name), grab (failing on Access), then record the grab and
        the keystroke. A grab recorded earlier for the same id is
        overwritten without being released. */
    method Register(id: u32, keystroke: Keystroke, x: XServer) returns (r: Result<(), string>)
      requires x.mapping.Some? ==> WellFormed(x.mapping.value)
      modifies this, inner, x
      ensures X11Grab(keystroke, x.mapping).None? ==>
        r == Err(UnresolvedKeyError(keystroke.key)) &&
        keycodes == old(keycodes) && inner.registered == old(inner.registered) && x.grabs == old(x.grabs)
      ensures X11Grab(keystroke, x.mapping).Some? && X11Grab(keystroke, x.mapping).value in x.foreign ==>
        r == Err(ACCESS_ERROR) &&
        keycodes == old(keycodes) && inner.registered == old(inner.registered) && x.grabs == old(x.grabs)
      ensures X11Grab(keystroke, x.mapping).Some? && X11Grab(keystroke, x.mapping).value !in x.foreign ==>
        r == Ok(()) &&
        keycodes == old(keycodes)[id := X11Grab(keystroke, x.mapping).value] &&
        inner.registered == old(inner.registered)[id := keystroke] &&
        x.grabs == old(x.grabs) + {X11Grab(keystroke, x.mapping).value}
      ensures id !in old(keycodes) && old(NoLeakedGrab(x)) ==> NoLeakedGrab(x)
    {
      var keycode := KeystrokeToX11Keycode(keystroke, x.mapping);
      if keycode.None? {
        return Err(UnresolvedKeyError(keystroke.key));
      }
      var g := Grab(keycode.value, KeystrokeToX11Modmask(keystroke));
      var ok := x.GrabKey(g);
      if !ok {
        return Err(ACCESS_ERROR);
      }
      ValuesAfterUpdate(keycodes, id, g);
      keycodes := keycodes[id := g];
      r := inner.Register(id, keystroke);
    }

    /** `unregister`: releases the id's grab if it has one, and forgets the
        id in both maps. */
    method Unregister(id: u32, x: XServer)
      modifies this, inner, x
      ensures keycodes == old(keycodes) - {id}
      ensures inner.registered == old(inner.registered) - {id}
      ensures x.grabs == if id in old(keycodes) then old(x.grabs) - {old(keycodes)[id]} else old(x.grabs)
      ensures old(NoLeakedGrab(x)) ==> NoLeakedGrab(x)
    {
      if id in keycodes {
        var g := keycodes[id];
        keycodes := keycodes - {id};
        x.UngrabKey(g);
        ValuesAfterRemove(old(keycodes), id);
      }
      inner.Unregister(id);
    }

    /** Every registered id's grab is held on the server. */
    predicate NoLostGrab(x: XServer)
      reads this, x
    {
      keycodes.Values <= x.grabs
    }

    /** `register` with the previous grab of the id released once the new
        one is held, unless another id was registered with the same
        combination: the corrected registration. The errors are those of
        `register` and leave everything as it was; success keeps both
        `NoLeakedGrab` and `NoLostGrab`. */
    method RegisterReleasingPrevious(id: u32, keystroke: Keystroke, x: XServer) returns (r: Result<(), string>)
      requires x.mapping.Some? ==> WellFormed(x.mapping.value)
      modifies this, inner, x
      ensures X11Grab(keystroke, x.mapping).None? ==> r == Err(UnresolvedKeyError(keystroke.key))
      ensures X11Grab(keystroke, x.mapping).Some? && X11Grab(keystroke, x.mapping).value in x.foreign ==>
        r == Err(ACCESS_ERROR)
      ensures r.Err? ==>
        keycodes == old(keycodes) && inner.registered == old(inner.registered) && x.grabs == old(x.grabs)
      ensures r.Ok? <==> X11Grab(keystroke, x.mapping).Some? && X11Grab(keystroke, x.mapping).value !in x.foreign
      ensures r.Ok? ==>
        var g := X11Grab(keystroke, x.mapping).value;
        && keycodes == old(keycodes)[id := g]
        && inner.registered == old(inner.registered)[id := keystroke]
        && x.grabs == (old(x.grabs) - Released(old(keycodes), id, g)) + {g}
      ensures old(NoLeakedGrab(x)) ==> NoLeakedGrab(x)
      ensures old(NoLostGrab(x)) ==> NoLostGrab(x)
    {
      var keycode := KeystrokeToX11Keycode(keystroke, x.mapping);
      if keycode.None? {
        return Err(UnresolvedKeyError(keystroke.key));
      }
      var g := Grab(keycode.value, KeystrokeToX11Modmask(keystroke));
      var ok := x.GrabKey(g);
      if !ok {
        return Err(ACCESS_ERROR);
      }
      if id in keycodes && keycodes[id] != g && keycodes[id] !in (keycodes - {id}).Values {
        x.UngrabKey(keycodes[id]);
      }
      ValuesAfterRelease(old(keycodes), id, g);
      keycodes := keycodes[id := g];
      r := inner.Register(id, keystroke);
    }
  }

  lemma ValuesAfterRemove(m: map<u32, Grab>, id: u32)
    requires id in m
    ensures m.Values - {m[id]} <= (m - {id}).Values
  {
    forall v | v in m.Values - {m[id]}
      ensures v in (m - {id}).Values
    {
      var k :| k in m && m[k] == v;
      assert k != id;
      assert (m - {id})[k] == v;
    }
  }

  /** The grab the corrected registration releases: the id's previous
      grab, when it differs from the new one and no other id shares it. */
  function Released(m: map<u32, Grab>, id: u32, g: Grab): set<Grab>
  {
    if id in m && m[id] != g && m[id] !in (m - {id}).Values then {m[id]} else {}
  }

  /** Rebinding an id takes exactly the released grab out of the grabs
      the ids account for, and brings in the new one. */
  lemma ValuesAfterRelease(m: map<u32, Grab>, id: u32, g: Grab)
    ensures m[id := g].Values == (m.Values - Released(m, id, g)) + {g}
  {
    var m' := m[id := g];
    var kept := (m.Values - Released(m, id, g)) + {g};
    assert m'[id] == g;
    forall v | v in kept
      ensures v in m'.Values
    {
      if v != g {
        var k :| k in m && m[k] == v;
        if k == id {
          assert m[id] in (m - {id}).Values;
          var j :| j in (m - {id}) && (m - {id})[j] == v;
          assert m'[j] == v;
        } else {
          assert m'[k] == v;
        }
      }
    }
    forall v | v in m'.Values
      ensures v in kept
    {
      var k :| k in m' && m'[k] == v;
      if k != id {
        assert m[k] == v && (m - {id})[k] == v;
      }
    }
  }

  lemma ValuesAfterUpdate(m: map<u32, Grab>, id: u32, g: Grab)
    ensures (if id in m then m.Values - {m[id]} else m.Values) + {g} <= m[id := g].Values
  {
    var m' := m[id := g];
    assert m'[id] == g;
    forall v | v in m.Values && (id in m ==> v != m[id])
      ensures v in m'.Values
    {
      var k :| k in m && m[k] == v;
      assert k != id;
      assert m'[k] == v;
    }
  }

  /** A two-key keyboard: keycode 8 carries `a`, keycode 9 carries `b`. */
  const TwoKeyMapping: KeyboardMapping := KeyboardMapping(8, 9, 1, [0x61, 0x62])

  function PlainKey(key: string): Keystroke
  {
    Keystroke(key, false, false, false, false)
  }

  lemma TwoKeyGrabs()
    ensures X11Grab(PlainKey("a"), Some(TwoKeyMapping)) == Some(Grab(8, 0))
    ensures X11Grab(PlainKey("b"), Some(TwoKeyMapping)) == Some(Grab(9, 0))
  {
    var m := TwoKeyMapping;
    assert Lower("a") == "a" && Lower("b") == "b";
    assert KeyNameToKeysym("a") == Some(0x61) && KeyNameToKeysym("b") == Some(0x62);
    assert m.keysyms[0..1] == [0x61] && m.keysyms[1..2] == [0x62];
    assert RowHasKeysym(m, 0, 0x61);
    assert FirstRowFrom(m, 0x61, 0) == Some(0);
    assert !RowHasKeysym(m, 0, 0x62) && RowHasKeysym(m, 1, 0x62);
    assert FirstRowFrom(m, 0x62, 1) == Some(1);
    assert FirstRowFrom(m, 0x62, 0) == Some(1);
    assert KeystrokeToX11Modmask(PlainKey("a")) == 0 && KeystrokeToX11Modmask(PlainKey("b")) == 0;
  }

  /** The grab leak of `register` as written: registering id 1 for `a` and
      then for `b` on the two-key keyboard leaves the grab on keycode 8
      held although no id records it any more. */
  method ReRegisterLeaksGrab() returns (h: X11GlobalHotkey, x: XServer)
    ensures h.keycodes == map[1 := Grab(9, 0)]
    ensures Grab(8, 0) in x.grabs && !h.NoLeakedGrab(x)
  {
    TwoKeyGrabs();
    x := new XServer(Some(TwoKeyMapping), {});
    h := new X11GlobalHotkey();
    var r1 := h.Register(1, PlainKey("a"), x);
    var r2 := h.Register(1, PlainKey("b"), x);
    assert h.keycodes == map[1 := Grab(9, 0)];
    assert h.keycodes.Values == {Grab(9, 0)} by {
      forall v | v in h.keycodes.Values ensures v == Grab(9, 0) {
        var k :| k in h.keycodes && h.keycodes[k] == v;
      }
      assert h.keycodes[1] == Grab(9, 0);
    }
  }

  /** Two ids bound to the same combination share one grab: rebinding one
      of them through the corrected registration keeps the shared grab for
      the other. */
  method SharedGrabSurvivesRebinding() returns (h: X11GlobalHotkey, x: XServer)
    ensures h.keycodes == map[1 := Grab(9, 0), 2 := Grab(8, 0)]
    ensures x.grabs == {Grab(8, 0), Grab(9, 0)}
    ensures h.NoLeakedGrab(x) && h.NoLostGrab(x)
  {
    TwoKeyGrabs();
    x := new XServer(Some(TwoKeyMapping), {});
    h := new X11GlobalHotkey();
    assert h.keycodes.Values == {};
    var r1 := h.RegisterReleasingPrevious(1, PlainKey("a"), x);
    var r2 := h.RegisterReleasingPrevious(2, PlainKey("a"), x);
    assert h.keycodes == map[1 := Grab(8, 0), 2 := Grab(8, 0)];
    assert (h.keycodes - {1})[2] == Grab(8, 0);
    var r3 := h.RegisterReleasingPrevious(1, PlainKey("b"), x);
  }

  /** The same two registrations through the corrected registration: the
      grab on keycode 8 is released. */
  method ReRegisterReleasesGrab() returns (h: X11GlobalHotkey, x: XServer)
    ensures h.keycodes == map[1 := Grab(9, 0)]
    ensures x.grabs == {Grab(9, 0)} && h.NoLeakedGrab(x)
  {
    TwoKeyGrabs();
    x := new XServer(Some(TwoKeyMapping), {});
    h := new X11GlobalHotkey();
    var r1 := h.RegisterReleasingPrevious(1, PlainKey("a"), x);
    var r2 := h.RegisterReleasingPrevious(1, PlainKey("b"), x);
    assert h.keycodes == map[1 := Grab(9, 0)];
    assert h.keycodes.Values == {Grab(9, 0)} by {
      forall v | v in h.keycodes.Values ensures v == Grab(9, 0) {
        var k :| k in h.keycodes && h.keycodes[k] == v;
      }
      assert h.keycodes[1] == Grab(9, 0);
    }
  }

  // ---------------------------------------------------------------------
  // Wayland

  /** The error every Wayland registration reports. */
  const WAYLAND_UNSUPPORTED: string := "Global hotkeys not supported on Wayland"

  /** `WaylandGlobalHotkey`: registration always fails and changes
      nothing; unregistration does nothing. */
  class WaylandGlobalHotkey {
    const inner: LinuxGlobalHotkey

    constructor ()
      ensures fresh(inner) && inner.registered == map[]
    {
      inner := new LinuxGlobalHotkey();
    }

    method Register(id: u32, keystroke: Keystroke) returns (r: Result<(), string>)
      ensures r == Err(WAYLAND_UNSUPPORTED)
    {
      r := Err(WAYLAND_UNSUPPORTED);
    }

    method Unregister(id: u32)
    {
    }
  }
}
