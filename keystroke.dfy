/** The parsed key combination every hotkey backend consumes. Its parser
    lives outside the modelled files; a `Keystroke` is taken as given. */
module Keystrokes {

  /** A key name (already lower-cased by the parser for descriptors, but the
      backends lower-case it again) and the four modifier flags; `platform`
      is Command on macOS, Win on Windows and Super on Linux. */
  datatype Keystroke = Keystroke(
    key: string,
    control: bool,
    alt: bool,
    shift: bool,
    platform: bool)
}
