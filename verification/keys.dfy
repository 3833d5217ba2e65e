/** The key-name translator: evdev key identifiers to the key names the
    desktop app matches on (the names of the rdev library, such as "ControlLeft"
    or "KeyA"). */
module KeyNames {
  import opened Wrappers

  /** A key as the Linux input layer reports it. The keys the name table
      lists come in the table's own groups; every other key is `Other`,
      carrying the key's debug identifier (evdev spells it "KEY_MUTE",
      "BTN_LEFT", ...). `Other` never carries the identifier of a tabulated
      key ("KEY_A", "KEY_SPACE", ...): such a key is always its group's
      constructor, so `Other("KEY_A")` stands for no real key. */
  datatype Key =
    | Modifier(modifierKey: ModifierKey)
    | Letter(letterKey: LetterKey)
    | Digit(digitKey: DigitKey)
    | Function(functionKey: FunctionKey)
    | Special(specialKey: SpecialKey)
    | Arrow(arrowKey: ArrowKey)
    | Punctuation(punctuationKey: PunctuationKey)
    | Keypad(keypadKey: KeypadKey)
    | Misc(miscKey: MiscKey)
    | Other(debugName: string)

  datatype ModifierKey = LeftCtrl | RightCtrl | LeftShift | RightShift | LeftAlt | RightAlt | LeftMeta | RightMeta

  datatype LetterKey = A | B | C | D | E | F | G | H | I | J | K | L | M | N | O | P | Q | R | S | T | U | V | W | X | Y | Z

  datatype DigitKey = Digit0 | Digit1 | Digit2 | Digit3 | Digit4 | Digit5 | Digit6 | Digit7 | Digit8 | Digit9

  datatype FunctionKey = F1 | F2 | F3 | F4 | F5 | F6 | F7 | F8 | F9 | F10 | F11 | F12

  datatype SpecialKey = Esc | Tab | CapsLock | Space | Enter | Backspace | Delete | Insert | Home | End | PageUp | PageDown

  datatype ArrowKey = Up | Down | Left | Right

  datatype PunctuationKey = Minus | Equal | LeftBrace | RightBrace | Backslash | Semicolon | Apostrophe | Grave | Comma | Dot | Slash

  datatype KeypadKey = Kp0 | Kp1 | Kp2 | Kp3 | Kp4 | Kp5 | Kp6 | Kp7 | Kp8 | Kp9 | KpEnter | KpPlus | KpMinus | KpAsterisk | KpSlash | KpDot | NumLock

  datatype MiscKey = ScrollLock | Pause | Print | Fn

  /** True for the keys the fixed table names. */
  predicate Tabulated(k: Key) {
    !k.Other?
  }

  const KeyPrefix: string := "KEY_"

  /** The fallback name of a key outside the table: its debug identifier with
      a leading "KEY_" removed, or the identifier unchanged if it has none. */
  function StripKeyPrefix(debugName: string): string {
    if KeyPrefix <= debugName then debugName[|KeyPrefix|..] else debugName
  }

  /** The name the desktop app expects for `k`: the table's name for a
      tabulated key, and for any other key its debug identifier, less the
      "KEY_" prefix when it has one. Total: every key gets a name. */
  function RdevName(k: Key): (name: string)
    ensures k.Other? && KeyPrefix <= k.debugName ==> KeyPrefix + name == k.debugName
    ensures k.Other? && !(KeyPrefix <= k.debugName) ==> name == k.debugName
  {
    match k
    case Modifier(key) => ModifierName(key)
    case Letter(key) => LetterName(key)
    case Digit(key) => DigitName(key)
    case Function(key) => FunctionName(key)
    case Special(key) => SpecialName(key)
    case Arrow(key) => ArrowName(key)
    case Punctuation(key) => PunctuationName(key)
    case Keypad(key) => KeypadName(key)
    case Misc(key) => MiscName(key)
    case Other(debugName) => StripKeyPrefix(debugName)
  }

  /** The table's names for modifier keys. */
  function ModifierName(key: ModifierKey): (name: string)
    ensures name != []
  {
    match key
    case LeftCtrl => "ControlLeft"
    case RightCtrl => "ControlRight"
    case LeftShift => "ShiftLeft"
    case RightShift => "ShiftRight"
    case LeftAlt => "Alt"
    case RightAlt => "AltRight"
    case LeftMeta => "MetaLeft"
    case RightMeta => "MetaRight"
  }

  /** The table's names for letter keys. */
  function LetterName(key: LetterKey): (name: string)
    ensures name != []
  {
    match key
    case A => "KeyA"
    case B => "KeyB"
    case C => "KeyC"
    case D => "KeyD"
    case E => "KeyE"
    case F => "KeyF"
    case G => "KeyG"
    case H => "KeyH"
    case I => "KeyI"
    case J => "KeyJ"
    case K => "KeyK"
    case L => "KeyL"
    case M => "KeyM"
    case N => "KeyN"
    case O => "KeyO"
    case P => "KeyP"
    case Q => "KeyQ"
    case R => "KeyR"
    case S => "KeyS"
    case T => "KeyT"
    case U => "KeyU"
    case V => "KeyV"
    case W => "KeyW"
    case X => "KeyX"
    case Y => "KeyY"
    case Z => "KeyZ"
  }

  /** The table's names for the number row. */
  function DigitName(key: DigitKey): (name: string)
    ensures name != []
  {
    match key
    case Digit0 => "Digit0"
    case Digit1 => "Digit1"
    case Digit2 => "Digit2"
    case Digit3 => "Digit3"
    case Digit4 => "Digit4"
    case Digit5 => "Digit5"
    case Digit6 => "Digit6"
    case Digit7 => "Digit7"
    case Digit8 => "Digit8"
    case Digit9 => "Digit9"
  }

  /** The table's names for function keys. */
  function FunctionName(key: FunctionKey): (name: string)
    ensures name != []
  {
    match key
    case F1 => "F1"
    case F2 => "F2"
    case F3 => "F3"
    case F4 => "F4"
    case F5 => "F5"
    case F6 => "F6"
    case F7 => "F7"
    case F8 => "F8"
    case F9 => "F9"
    case F10 => "F10"
    case F11 => "F11"
    case F12 => "F12"
  }

  /** The table's names for special keys. */
  function SpecialName(key: SpecialKey): (name: string)
    ensures name != []
  {
    match key
    case Esc => "Escape"
    case Tab => "Tab"
    case CapsLock => "CapsLock"
    case Space => "Space"
    case Enter => "Return"
    case Backspace => "BackSpace"
    case Delete => "Delete"
    case Insert => "Insert"
    case Home => "Home"
    case End => "End"
    case PageUp => "PageUp"
    case PageDown => "PageDown"
  }

  /** The table's names for arrow keys. */
  function ArrowName(key: ArrowKey): (name: string)
    ensures name != []
  {
    match key
    case Up => "UpArrow"
    case Down => "DownArrow"
    case Left => "LeftArrow"
    case Right => "RightArrow"
  }

  /** The table's names for punctuation and symbol keys. */
  function PunctuationName(key: PunctuationKey): (name: string)
    ensures name != []
  {
    match key
    case Minus => "Minus"
    case Equal => "Equal"
    case LeftBrace => "BracketLeft"
    case RightBrace => "BracketRight"
    case Backslash => "BackSlash"
    case Semicolon => "Semicolon"
    case Apostrophe => "Quote"
    case Grave => "BackQuote"
    case Comma => "Comma"
    case Dot => "Period"
    case Slash => "Slash"
  }

  /** The table's names for numeric keypad keys. */
  function KeypadName(key: KeypadKey): (name: string)
    ensures name != []
  {
    match key
    case Kp0 => "Numpad0"
    case Kp1 => "Numpad1"
    case Kp2 => "Numpad2"
    case Kp3 => "Numpad3"
    case Kp4 => "Numpad4"
    case Kp5 => "Numpad5"
    case Kp6 => "Numpad6"
    case Kp7 => "Numpad7"
    case Kp8 => "Numpad8"
    case Kp9 => "Numpad9"
    case KpEnter => "NumpadEnter"
    case KpPlus => "NumpadAdd"
    case KpMinus => "NumpadSubtract"
    case KpAsterisk => "NumpadMultiply"
    case KpSlash => "NumpadDivide"
    case KpDot => "NumpadDecimal"
    case NumLock => "NumLock"
  }

  /** The table's names for the remaining tabulated keys. */
  function MiscName(key: MiscKey): (name: string)
    ensures name != []
  {
    match key
    case ScrollLock => "ScrollLock"
    case Pause => "Pause"
    case Print => "PrintScreen"
    case Fn => "Function"
  }

  /** The translator yields the empty name exactly for the two degenerate
      debug identifiers "" and "KEY_"; every tabulated key and every other
      identifier gets a non-empty name. */
  lemma RdevNameEmptyIff(k: Key)
    ensures RdevName(k) == [] <==> k.Other? && (k.debugName == [] || k.debugName == KeyPrefix)
  {
  }

  /** The names that do not follow the table's regular patterns, on which
      the desktop app matches exactly: left Alt is plain "Alt" while right
      Alt is "AltRight", and Enter, Backspace, the apostrophe and Fn are
      "Return", "BackSpace", "Quote" and "Function". */
  lemma IrregularNames()
    ensures RdevName(Modifier(LeftAlt)) == "Alt"
    ensures RdevName(Modifier(RightAlt)) == "AltRight"
    ensures RdevName(Special(Enter)) == "Return"
    ensures RdevName(Special(Backspace)) == "BackSpace"
    ensures RdevName(Punctuation(Apostrophe)) == "Quote"
    ensures RdevName(Misc(Fn)) == "Function"
  {
  }
}
