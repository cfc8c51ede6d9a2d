/** The macOS global-hotkey matcher. There is no registration call: every
    key-down event seen by the application's event monitor is compared with
    each stored keystroke, and the first one that matches names the hotkey.
    An `NSEvent` is a value carrying the three things the matcher reads. */
module MacHotkey {
  import opened Wrappers
  import opened Text
  import opened Keystrokes

  /** NSEventType of a key press. */
  const NS_KEY_DOWN: nat := 10

  /** NSEventModifierFlags bits. */
  const NS_ALPHA_SHIFT_KEY_MASK: bv64 := 0x1_0000
  const NS_SHIFT_KEY_MASK: bv64 := 0x2_0000
  const NS_CONTROL_KEY_MASK: bv64 := 0x4_0000
  const NS_ALTERNATE_KEY_MASK: bv64 := 0x8_0000
  const NS_COMMAND_KEY_MASK: bv64 := 0x10_0000

  /** The four bits the matcher compares. */
  const MATCHED_FLAGS: bv64 :=
    NS_SHIFT_KEY_MASK | NS_CONTROL_KEY_MASK | NS_ALTERNATE_KEY_MASK | NS_COMMAND_KEY_MASK

  /** What `charactersIgnoringModifiers` yields: nil, a string whose UTF-8
      pointer is null, or a C string (its bytes up to the first NUL, and
      whether they are valid UTF-8, already decoded to text). */
  datatype EventCharacters =
    | NilCharacters
    | NullUtf8
    | CString(text: string, validUtf8: bool)

  datatype NSEvent = NSEvent(eventType: nat, modifierFlags: bv64, characters: EventCharacters)

  /** The key text of a C string: the characters before the first NUL, or
      "" when they are not valid UTF-8. */
  function CStringText(text: string, validUtf8: bool): (r: string)
    ensures '\0' !in r
    ensures validUtf8 && '\0' !in text ==> r == text
  {
    if validUtf8 then BeforeFirst(text, '\0') else ""
  }

  /** `keystroke_matches_event`. A match needs a key-down event, the same
      four modifiers (platform with Command, control with Control, alt with
      Alternate, shift with Shift), readable characters, and the same key
      once both sides are lower-cased. */
  function KeystrokeMatchesEvent(keystroke: Keystroke, event: NSEvent): (matches: bool)
    ensures matches ==> event.eventType == NS_KEY_DOWN
    ensures matches ==>
      && keystroke.platform == (event.modifierFlags & NS_COMMAND_KEY_MASK != 0)
      && keystroke.control == (event.modifierFlags & NS_CONTROL_KEY_MASK != 0)
      && keystroke.alt == (event.modifierFlags & NS_ALTERNATE_KEY_MASK != 0)
      && keystroke.shift == (event.modifierFlags & NS_SHIFT_KEY_MASK != 0)
    ensures matches ==> event.characters.CString?
  {
    if event.eventType != NS_KEY_DOWN then false
    else
      var flags := event.modifierFlags;
      if keystroke.platform != (flags & NS_COMMAND_KEY_MASK != 0)
        || keystroke.control != (flags & NS_CONTROL_KEY_MASK != 0)
        || keystroke.alt != (flags & NS_ALTERNATE_KEY_MASK != 0)
        || keystroke.shift != (flags & NS_SHIFT_KEY_MASK != 0)
      then false
      else
        match event.characters
        case NilCharacters => false
        case NullUtf8 => false
        case CString(text, valid) => Lower(CStringText(text, valid)) == Lower(keystroke.key)
  }

  /** Flag bits other than the four compared ones (Caps Lock, the numeric
      pad, function-key bits, ...) never change the answer. */
  lemma OtherFlagsIgnored(keystroke: Keystroke, event: NSEvent, extra: bv64)
    requires extra & MATCHED_FLAGS == 0
    ensures KeystrokeMatchesEvent(keystroke, event.(modifierFlags := event.modifierFlags | extra))
         == KeystrokeMatchesEvent(keystroke, event)
  {
    var flags, flags' := event.modifierFlags, event.modifierFlags | extra;
    assert extra & NS_COMMAND_KEY_MASK == 0 && extra & NS_CONTROL_KEY_MASK == 0;
    assert extra & NS_ALTERNATE_KEY_MASK == 0 && extra & NS_SHIFT_KEY_MASK == 0;
    assert (flags' & NS_COMMAND_KEY_MASK) == (flags & NS_COMMAND_KEY_MASK);
    assert (flags' & NS_CONTROL_KEY_MASK) == (flags & NS_CONTROL_KEY_MASK);
    assert (flags' & NS_ALTERNATE_KEY_MASK) == (flags & NS_ALTERNATE_KEY_MASK);
    assert (flags' & NS_SHIFT_KEY_MASK) == (flags & NS_SHIFT_KEY_MASK);
  }

  /** The key is compared without regard to case, on either side. */
  lemma MatchIgnoresCase(keystroke: Keystroke, event: NSEvent)
    ensures KeystrokeMatchesEvent(keystroke.(key := Lower(keystroke.key)), event)
         == KeystrokeMatchesEvent(keystroke, event)
    ensures event.characters.CString? ==>
      var upper := event.(characters := CString(Lower(event.characters.text), event.characters.validUtf8));
      KeystrokeMatchesEvent(keystroke, upper) == KeystrokeMatchesEvent(keystroke, event)
  {
    LowerIdempotent(keystroke.key);
    if event.characters.CString? {
      var text := event.characters.text;
      if event.characters.validUtf8 {
        LowerBeforeFirstNul(text);
      }
    }
  }

  /** Lower-casing keeps NUL where it is, so it commutes with cutting the
      text at the first NUL. */
  lemma LowerBeforeFirstNul(text: string)
    ensures Lower(BeforeFirst(Lower(text), '\0')) == Lower(BeforeFirst(text, '\0'))
  {
    var cut, cut' := BeforeFirst(text, '\0'), BeforeFirst(Lower(text), '\0');
    forall i | 0 <= i < |text|
      ensures (Lower(text)[i] == '\0') == (text[i] == '\0')
    {
    }
    LowerPreservesIndexOf(text, '\0');
    assert |cut'| == |cut|;
    forall i | 0 <= i < |cut|
      ensures Lower(cut')[i] == Lower(cut)[i]
    {
      assert cut'[i] == Lower(text)[i] && cut[i] == text[i];
    }
  }

  lemma {:induction false} LowerPreservesIndexOf(text: string, c: char)
    requires forall i :: 0 <= i < |text| ==> (Lower(text)[i] == c) == (text[i] == c)
    ensures IndexOf(Lower(text), c) == IndexOf(text, c)
  {
  }

  /** The modifier bits of a keystroke, as the event monitor would report
      them. */
  function FlagsOf(keystroke: Keystroke): (flags: bv64)
    ensures flags & !MATCHED_FLAGS == 0
  {
    (if keystroke.platform then NS_COMMAND_KEY_MASK else 0) |
    (if keystroke.control then NS_CONTROL_KEY_MASK else 0) |
    (if keystroke.alt then NS_ALTERNATE_KEY_MASK else 0) |
    (if keystroke.shift then NS_SHIFT_KEY_MASK else 0)
  }

  /** The key-down event produced by pressing a keystroke. */
  function KeyDownFor(keystroke: Keystroke): NSEvent
  {
    NSEvent(NS_KEY_DOWN, FlagsOf(keystroke), CString(keystroke.key, true))
  }

  /** A keystroke's own key-down event matches exactly the keystrokes with
      the same modifiers and the same key up to case. */
  lemma KeyDownMatchesExactly(pressed: Keystroke, stored: Keystroke)
    requires '\0' !in pressed.key
    ensures KeystrokeMatchesEvent(stored, KeyDownFor(pressed)) <==>
      && stored.platform == pressed.platform
      && stored.control == pressed.control
      && stored.alt == pressed.alt
      && stored.shift == pressed.shift
      && Lower(stored.key) == Lower(pressed.key)
  {
    var flags := FlagsOf(pressed);
    assert (flags & NS_COMMAND_KEY_MASK != 0) == pressed.platform;
    assert (flags & NS_CONTROL_KEY_MASK != 0) == pressed.control;
    assert (flags & NS_ALTERNATE_KEY_MASK != 0) == pressed.alt;
    assert (flags & NS_SHIFT_KEY_MASK != 0) == pressed.shift;
  }

  // ---------------------------------------------------------------------
  // Searching the registrations

  /** `order` lists the registered ids, as the map's iteration does. */
  ghost predicate EnumeratesKeys(registrations: map<u32, Keystroke>, order: seq<u32>)
  {
    forall id :: id in registrations <==> id in order
  }

  /** The first id of `order` whose registered keystroke matches. */
  function FirstMatching(registrations: map<u32, Keystroke>, order: seq<u32>, event: NSEvent): Option<u32>
    requires forall id :: id in order ==> id in registrations
  {
    if order == [] then None
    else if KeystrokeMatchesEvent(registrations[order[0]], event) then Some(order[0])
    else FirstMatching(registrations, order[1..], event)
  }

  /** Whatever the iteration order, a result is a registered id whose
      keystroke matches, and there is no result exactly when no registered
      keystroke matches. */
  lemma {:induction false} FirstMatchingSound(registrations: map<u32, Keystroke>, order: seq<u32>, event: NSEvent)
    requires EnumeratesKeys(registrations, order)
    ensures var r := FirstMatching(registrations, order, event);
      r.Some? ==> r.value in registrations && KeystrokeMatchesEvent(registrations[r.value], event)
    ensures FirstMatching(registrations, order, event).None? <==>
      forall id :: id in registrations ==> !KeystrokeMatchesEvent(registrations[id], event)
  {
    FirstMatchingInOrder(registrations, order, event);
  }

  lemma {:induction false} FirstMatchingInOrder(registrations: map<u32, Keystroke>, order: seq<u32>, event: NSEvent)
    requires forall id :: id in order ==> id in registrations
    ensures var r := FirstMatching(registrations, order, event);
      r.Some? ==> r.value in order && KeystrokeMatchesEvent(registrations[r.value], event)
    ensures FirstMatching(registrations, order, event).None? <==>
      forall i :: 0 <= i < |order| ==> !KeystrokeMatchesEvent(registrations[order[i]], event)
  {
    if order != [] && !KeystrokeMatchesEvent(registrations[order[0]], event) {
      FirstMatchingInOrder(registrations, order[1..], event);
      assert forall i :: 1 <= i < |order| ==> order[i] == order[1..][i - 1];
    }
  }

  /** An empty registry never matches. */
  lemma EmptyRegistryNeverMatches(order: seq<u32>, event: NSEvent)
    requires EnumeratesKeys(map[], order)
    ensures FirstMatching(map[], order, event) == None
  {
    FirstMatchingSound(map[], order, event);
  }

  /** `find_matching_hotkey`: the loop over the registrations, returning at
      the first match. */
  method FindMatchingHotkey(registrations: map<u32, Keystroke>, order: seq<u32>, event: NSEvent) returns (r: Option<u32>)
    requires EnumeratesKeys(registrations, order)
    ensures r == FirstMatching(registrations, order, event)
  {
    var i := 0;
    while i < |order|
      invariant 0 <= i <= |order|
      invariant FirstMatching(registrations, order, event) == FirstMatching(registrations, order[i..], event)
    {
      assert order[i..][1..] == order[i + 1..];
      if KeystrokeMatchesEvent(registrations[order[i]], event) {
        return Some(order[i]);
      }
      i := i + 1;
    }
    return None;
  }
}
