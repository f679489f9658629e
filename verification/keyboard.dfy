/**
 * The virtual keyboard of `src/keyboard.rs`: the character table, the
 * typing of strings as key events, Ctrl shortcuts and the progress marks.
 *
 * Every routine is a plan of `Emission.Step<InputEvent>` (one `emit` call
 * per event, plus the sleeps); `Emission.Run` replays a plan on a device
 * that may fail.
 */
module Keyboard {
  import opened Common
  import opened Emission

  /** The keys the program names, as Linux key codes (`KEY_*`). */
  datatype Key =
    | KeyA | KeyB | KeyC | KeyD | KeyE | KeyF | KeyG | KeyH | KeyI | KeyJ | KeyK | KeyL | KeyM
    | KeyN | KeyO | KeyP | KeyQ | KeyR | KeyS | KeyT | KeyU | KeyV | KeyW | KeyX | KeyY | KeyZ
    | Key1 | Key2 | Key3 | Key4 | Key5 | Key6 | Key7 | Key8 | Key9 | Key0
    | KeySpace | KeyEnter | KeyTab | KeyLeftShift | KeyMinus | KeyEqual | KeyLeftBrace | KeyRightBrace
    | KeyBackslash | KeySemicolon | KeyApostrophe | KeyGrave | KeyComma | KeyDot | KeySlash | KeyBackspace
    | KeyEsc | KeyLeftCtrl | KeyLeftAlt
  {
    /** The key's Linux input event code. */
    function Code(): nat
    {
      match this
      case KeyA => 30
      case KeyB => 48
      case KeyC => 46
      case KeyD => 32
      case KeyE => 18
      case KeyF => 33
      case KeyG => 34
      case KeyH => 35
      case KeyI => 23
      case KeyJ => 36
      case KeyK => 37
      case KeyL => 38
      case KeyM => 50
      case KeyN => 49
      case KeyO => 24
      case KeyP => 25
      case KeyQ => 16
      case KeyR => 19
      case KeyS => 31
      case KeyT => 20
      case KeyU => 22
      case KeyV => 47
      case KeyW => 17
      case KeyX => 45
      case KeyY => 21
      case KeyZ => 44
      case Key1 => 2
      case Key2 => 3
      case Key3 => 4
      case Key4 => 5
      case Key5 => 6
      case Key6 => 7
      case Key7 => 8
      case Key8 => 9
      case Key9 => 10
      case Key0 => 11
      case KeySpace => 57
      case KeyEnter => 28
      case KeyTab => 15
      case KeyLeftShift => 42
      case KeyMinus => 12
      case KeyEqual => 13
      case KeyLeftBrace => 26
      case KeyRightBrace => 27
      case KeyBackslash => 43
      case KeySemicolon => 39
      case KeyApostrophe => 40
      case KeyGrave => 41
      case KeyComma => 51
      case KeyDot => 52
      case KeySlash => 53
      case KeyBackspace => 14
      case KeyEsc => 1
      case KeyLeftCtrl => 29
      case KeyLeftAlt => 56
    }
  }

  /** Inverse of `Key.Code` on the codes the program uses. */
  function KeyOfCode(code: int): Option<Key>
  {
    match code
      case 1 => Some(KeyEsc)
      case 2 => Some(Key1)
      case 3 => Some(Key2)
      case 4 => Some(Key3)
      case 5 => Some(Key4)
      case 6 => Some(Key5)
      case 7 => Some(Key6)
      case 8 => Some(Key7)
      case 9 => Some(Key8)
      case 10 => Some(Key9)
      case 11 => Some(Key0)
      case 12 => Some(KeyMinus)
      case 13 => Some(KeyEqual)
      case 14 => Some(KeyBackspace)
      case 15 => Some(KeyTab)
      case 16 => Some(KeyQ)
      case 17 => Some(KeyW)
      case 18 => Some(KeyE)
      case 19 => Some(KeyR)
      case 20 => Some(KeyT)
      case 21 => Some(KeyY)
      case 22 => Some(KeyU)
      case 23 => Some(KeyI)
      case 24 => Some(KeyO)
      case 25 => Some(KeyP)
      case 26 => Some(KeyLeftBrace)
      case 27 => Some(KeyRightBrace)
      case 28 => Some(KeyEnter)
      case 29 => Some(KeyLeftCtrl)
      case 30 => Some(KeyA)
      case 31 => Some(KeyS)
      case 32 => Some(KeyD)
      case 33 => Some(KeyF)
      case 34 => Some(KeyG)
      case 35 => Some(KeyH)
      case 36 => Some(KeyJ)
      case 37 => Some(KeyK)
      case 38 => Some(KeyL)
      case 39 => Some(KeySemicolon)
      case 40 => Some(KeyApostrophe)
      case 41 => Some(KeyGrave)
      case 42 => Some(KeyLeftShift)
      case 43 => Some(KeyBackslash)
      case 44 => Some(KeyZ)
      case 45 => Some(KeyX)
      case 46 => Some(KeyC)
      case 47 => Some(KeyV)
      case 48 => Some(KeyB)
      case 49 => Some(KeyN)
      case 50 => Some(KeyM)
      case 51 => Some(KeyComma)
      case 52 => Some(KeyDot)
      case 53 => Some(KeySlash)
      case 56 => Some(KeyLeftAlt)
      case 57 => Some(KeySpace)
      case _ => None
  }

  /** The character table of `create_key_map`: the key and whether Shift
      is held; `None` for characters the table leaves out. The entries are
      grouped as in the source (letters, digits, shifted symbols, unshifted
      punctuation, whitespace and action keys). */
  function KeyFor(c: char): Option<(Key, bool)>
  {
    if 'a' <= c <= 'z' then LowerKeyFor(c)
    else if 'A' <= c <= 'Z' then UpperKeyFor(c)
    else if '0' <= c <= '9' then DigitKeyFor(c)
    else if ShiftedDigitKeyFor(c).Some? then ShiftedDigitKeyFor(c)
    else if ShiftedPunctuationKeyFor(c).Some? then ShiftedPunctuationKeyFor(c)
    else if PunctuationKeyFor(c).Some? then PunctuationKeyFor(c)
    else ControlKeyFor(c)
  }

  /** Lower-case letters. */
  function LowerKeyFor(c: char): Option<(Key, bool)>
  {
    match c
    case 'a' => Some((KeyA, false))
    case 'b' => Some((KeyB, false))
    case 'c' => Some((KeyC, false))
    case 'd' => Some((KeyD, false))
    case 'e' => Some((KeyE, false))
    case 'f' => Some((KeyF, false))
    case 'g' => Some((KeyG, false))
    case 'h' => Some((KeyH, false))
    case 'i' => Some((KeyI, false))
    case 'j' => Some((KeyJ, false))
    case 'k' => Some((KeyK, false))
    case 'l' => Some((KeyL, false))
    case 'm' => Some((KeyM, false))
    case 'n' => Some((KeyN, false))
    case 'o' => Some((KeyO, false))
    case 'p' => Some((KeyP, false))
    case 'q' => Some((KeyQ, false))
    case 'r' => Some((KeyR, false))
    case 's' => Some((KeyS, false))
    case 't' => Some((KeyT, false))
    case 'u' => Some((KeyU, false))
    case 'v' => Some((KeyV, false))
    case 'w' => Some((KeyW, false))
    case 'x' => Some((KeyX, false))
    case 'y' => Some((KeyY, false))
    case 'z' => Some((KeyZ, false))
    case _ => None
  }

  /** Upper-case letters. */
  function UpperKeyFor(c: char): Option<(Key, bool)>
  {
    match c
    case 'A' => Some((KeyA, true))
    case 'B' => Some((KeyB, true))
    case 'C' => Some((KeyC, true))
    case 'D' => Some((KeyD, true))
    case 'E' => Some((KeyE, true))
    case 'F' => Some((KeyF, true))
    case 'G' => Some((KeyG, true))
    case 'H' => Some((KeyH, true))
    case 'I' => Some((KeyI, true))
    case 'J' => Some((KeyJ, true))
    case 'K' => Some((KeyK, true))
    case 'L' => Some((KeyL, true))
    case 'M' => Some((KeyM, true))
    case 'N' => Some((KeyN, true))
    case 'O' => Some((KeyO, true))
    case 'P' => Some((KeyP, true))
    case 'Q' => Some((KeyQ, true))
    case 'R' => Some((KeyR, true))
    case 'S' => Some((KeyS, true))
    case 'T' => Some((KeyT, true))
    case 'U' => Some((KeyU, true))
    case 'V' => Some((KeyV, true))
    case 'W' => Some((KeyW, true))
    case 'X' => Some((KeyX, true))
    case 'Y' => Some((KeyY, true))
    case 'Z' => Some((KeyZ, true))
    case _ => None
  }

  /** Digits. */
  function DigitKeyFor(c: char): Option<(Key, bool)>
  {
    match c
    case '0' => Some((Key0, false))
    case '1' => Some((Key1, false))
    case '2' => Some((Key2, false))
    case '3' => Some((Key3, false))
    case '4' => Some((Key4, false))
    case '5' => Some((Key5, false))
    case '6' => Some((Key6, false))
    case '7' => Some((Key7, false))
    case '8' => Some((Key8, false))
    case '9' => Some((Key9, false))
    case _ => None
  }

  /** Symbols typed with Shift on a digit key. */
  function ShiftedDigitKeyFor(c: char): Option<(Key, bool)>
  {
    match c
    case '!' => Some((Key1, true))
    case '@' => Some((Key2, true))
    case '#' => Some((Key3, true))
    case '$' => Some((Key4, true))
    case '%' => Some((Key5, true))
    case '^' => Some((Key6, true))
    case '&' => Some((Key7, true))
    case '*' => Some((Key8, true))
    case '(' => Some((Key9, true))
    case ')' => Some((Key0, true))
    case _ => None
  }

  /** Symbols typed with Shift on a punctuation key. */
  function ShiftedPunctuationKeyFor(c: char): Option<(Key, bool)>
  {
    match c
    case '_' => Some((KeyMinus, true))
    case '+' => Some((KeyEqual, true))
    case '{' => Some((KeyLeftBrace, true))
    case '}' => Some((KeyRightBrace, true))
    case '|' => Some((KeyBackslash, true))
    case ':' => Some((KeySemicolon, true))
    case '\"' => Some((KeyApostrophe, true))
    case '<' => Some((KeyComma, true))
    case '>' => Some((KeyDot, true))
    case '?' => Some((KeySlash, true))
    case '~' => Some((KeyGrave, true))
    case _ => None
  }

  /** Punctuation typed without Shift. */
  function PunctuationKeyFor(c: char): Option<(Key, bool)>
  {
    match c
    case '-' => Some((KeyMinus, false))
    case '=' => Some((KeyEqual, false))
    case '[' => Some((KeyLeftBrace, false))
    case ']' => Some((KeyRightBrace, false))
    case '\\' => Some((KeyBackslash, false))
    case ';' => Some((KeySemicolon, false))
    case '\'' => Some((KeyApostrophe, false))
    case ',' => Some((KeyComma, false))
    case '.' => Some((KeyDot, false))
    case '/' => Some((KeySlash, false))
    case '`' => Some((KeyGrave, false))
    case _ => None
  }

  /** Whitespace and the action keys. */
  function ControlKeyFor(c: char): Option<(Key, bool)>
  {
    match c
    case ' ' => Some((KeySpace, false))
    case '\t' => Some((KeyTab, false))
    case '\n' => Some((KeyEnter, false))
    case '\U{8}' => Some((KeyBackspace, false))
    case '\U{1B}' => Some((KeyEsc, false))
    case _ => None
  }

  /** The character a key produces with or without Shift, read off the
      same table from the key side. */
  function CharFor(k: Key, shift: bool): Option<char>
  {
    match k
    case KeyA => if shift then Some('A') else Some('a')
    case KeyB => if shift then Some('B') else Some('b')
    case KeyC => if shift then Some('C') else Some('c')
    case KeyD => if shift then Some('D') else Some('d')
    case KeyE => if shift then Some('E') else Some('e')
    case KeyF => if shift then Some('F') else Some('f')
    case KeyG => if shift then Some('G') else Some('g')
    case KeyH => if shift then Some('H') else Some('h')
    case KeyI => if shift then Some('I') else Some('i')
    case KeyJ => if shift then Some('J') else Some('j')
    case KeyK => if shift then Some('K') else Some('k')
    case KeyL => if shift then Some('L') else Some('l')
    case KeyM => if shift then Some('M') else Some('m')
    case KeyN => if shift then Some('N') else Some('n')
    case KeyO => if shift then Some('O') else Some('o')
    case KeyP => if shift then Some('P') else Some('p')
    case KeyQ => if shift then Some('Q') else Some('q')
    case KeyR => if shift then Some('R') else Some('r')
    case KeyS => if shift then Some('S') else Some('s')
    case KeyT => if shift then Some('T') else Some('t')
    case KeyU => if shift then Some('U') else Some('u')
    case KeyV => if shift then Some('V') else Some('v')
    case KeyW => if shift then Some('W') else Some('w')
    case KeyX => if shift then Some('X') else Some('x')
    case KeyY => if shift then Some('Y') else Some('y')
    case KeyZ => if shift then Some('Z') else Some('z')
    case Key1 => if shift then Some('!') else Some('1')
    case Key2 => if shift then Some('@') else Some('2')
    case Key3 => if shift then Some('#') else Some('3')
    case Key4 => if shift then Some('$') else Some('4')
    case Key5 => if shift then Some('%') else Some('5')
    case Key6 => if shift then Some('^') else Some('6')
    case Key7 => if shift then Some('&') else Some('7')
    case Key8 => if shift then Some('*') else Some('8')
    case Key9 => if shift then Some('(') else Some('9')
    case Key0 => if shift then Some(')') else Some('0')
    case KeySpace => if shift then None else Some(' ')
    case KeyEnter => if shift then None else Some('\n')
    case KeyTab => if shift then None else Some('\t')
    case KeyLeftShift => None
    case KeyMinus => if shift then Some('_') else Some('-')
    case KeyEqual => if shift then Some('+') else Some('=')
    case KeyLeftBrace => if shift then Some('{') else Some('[')
    case KeyRightBrace => if shift then Some('}') else Some(']')
    case KeyBackslash => if shift then Some('|') else Some('\\')
    case KeySemicolon => if shift then Some(':') else Some(';')
    case KeyApostrophe => if shift then Some('\"') else Some('\'')
    case KeyGrave => if shift then Some('~') else Some('`')
    case KeyComma => if shift then Some('<') else Some(',')
    case KeyDot => if shift then Some('>') else Some('.')
    case KeySlash => if shift then Some('?') else Some('/')
    case KeyBackspace => if shift then None else Some('\U{8}')
    case KeyEsc => if shift then None else Some('\U{1B}')
    case KeyLeftCtrl => None
    case KeyLeftAlt => None
  }

  /** The key set declared by `create_virtual_device`. */
  const DeviceKeys: set<Key> := {
      KeyA, KeyB, KeyC, KeyD, KeyE, KeyF, KeyG, KeyH,
      KeyI, KeyJ, KeyK, KeyL, KeyM, KeyN, KeyO, KeyP,
      KeyQ, KeyR, KeyS, KeyT, KeyU, KeyV, KeyW, KeyX,
      KeyY, KeyZ, Key1, Key2, Key3, Key4, Key5, Key6,
      Key7, Key8, Key9, Key0, KeySpace, KeyEnter, KeyTab, KeyLeftShift,
      KeyMinus, KeyEqual, KeyLeftBrace, KeyRightBrace, KeyBackslash, KeySemicolon, KeyApostrophe, KeyGrave,
      KeyComma, KeyDot, KeySlash, KeyBackspace, KeyEsc, KeyLeftCtrl, KeyLeftAlt
    }

  // ---------------------------------------------------------------------
  // The table

  /** The table read from the key side gives back every character it
      maps, so no two characters share a (key, shift) pair. */
  lemma KeyForRoundTrip(c: char)
    requires KeyFor(c).Some?
    ensures CharFor(KeyFor(c).value.0, KeyFor(c).value.1) == Some(c)
  {
    if 'a' <= c <= 'm' {
      LowerRoundTripAM(c);
    } else if 'n' <= c <= 'z' {
      LowerRoundTripNZ(c);
    } else if 'A' <= c <= 'M' {
      UpperRoundTripAM(c);
    } else if 'N' <= c <= 'Z' {
      UpperRoundTripNZ(c);
    } else if '0' <= c <= '9' {
      DigitRoundTrip(c);
    } else if ShiftedDigitKeyFor(c).Some? {
      ShiftedDigitRoundTrip(c);
    } else if ShiftedPunctuationKeyFor(c).Some? {
      if c < '@' {
        ShiftedPunctuationRoundTripLow(c);
      } else {
        ShiftedPunctuationRoundTripHigh(c);
      }
    } else if PunctuationKeyFor(c).Some? {
      if c < '=' {
        PunctuationRoundTripLow(c);
      } else {
        PunctuationRoundTripHigh(c);
      }
    } else {
      ControlRoundTrip(c);
    }
  }

  lemma LowerRoundTripAM(c: char)
    requires 'a' <= c <= 'm'
    ensures LowerKeyFor(c).Some? && CharFor(LowerKeyFor(c).value.0, LowerKeyFor(c).value.1) == Some(c)
  {
  }

  lemma LowerRoundTripNZ(c: char)
    requires 'n' <= c <= 'z'
    ensures LowerKeyFor(c).Some? && CharFor(LowerKeyFor(c).value.0, LowerKeyFor(c).value.1) == Some(c)
  {
  }

  lemma UpperRoundTripAM(c: char)
    requires 'A' <= c <= 'M'
    ensures UpperKeyFor(c).Some? && CharFor(UpperKeyFor(c).value.0, UpperKeyFor(c).value.1) == Some(c)
  {
  }

  lemma UpperRoundTripNZ(c: char)
    requires 'N' <= c <= 'Z'
    ensures UpperKeyFor(c).Some? && CharFor(UpperKeyFor(c).value.0, UpperKeyFor(c).value.1) == Some(c)
  {
  }

  lemma DigitRoundTrip(c: char)
    requires '0' <= c <= '9'
    ensures DigitKeyFor(c).Some? && CharFor(DigitKeyFor(c).value.0, DigitKeyFor(c).value.1) == Some(c)
  {
  }

  lemma ShiftedDigitRoundTrip(c: char)
    requires ShiftedDigitKeyFor(c).Some?
    ensures CharFor(ShiftedDigitKeyFor(c).value.0, ShiftedDigitKeyFor(c).value.1) == Some(c)
  {
  }

  lemma ShiftedPunctuationRoundTripLow(c: char)
    requires ShiftedPunctuationKeyFor(c).Some? && c < '@'
    ensures CharFor(ShiftedPunctuationKeyFor(c).value.0, ShiftedPunctuationKeyFor(c).value.1) == Some(c)
  {
  }

  lemma ShiftedPunctuationRoundTripHigh(c: char)
    requires ShiftedPunctuationKeyFor(c).Some? && c >= '@'
    ensures CharFor(ShiftedPunctuationKeyFor(c).value.0, ShiftedPunctuationKeyFor(c).value.1) == Some(c)
  {
  }

  lemma PunctuationRoundTripLow(c: char)
    requires PunctuationKeyFor(c).Some? && c < '='
    ensures CharFor(PunctuationKeyFor(c).value.0, PunctuationKeyFor(c).value.1) == Some(c)
  {
  }

  lemma PunctuationRoundTripHigh(c: char)
    requires PunctuationKeyFor(c).Some? && c >= '='
    ensures CharFor(PunctuationKeyFor(c).value.0, PunctuationKeyFor(c).value.1) == Some(c)
  {
  }

  lemma ControlRoundTrip(c: char)
    requires ControlKeyFor(c).Some?
    ensures CharFor(ControlKeyFor(c).value.0, ControlKeyFor(c).value.1) == Some(c)
  {
  }

  /** Conversely every (key, shift) pair `CharFor` names is in the table. */
  lemma CharForRoundTrip(k: Key, shift: bool)
    requires CharFor(k, shift).Some?
    ensures KeyFor(CharFor(k, shift).value) == Some((k, shift))
  {
    if IsLetterKey(k) {
      if shift { ShiftedLetterRoundTrip(k); } else { PlainLetterRoundTrip(k); }
    } else if IsDigitKey(k) {
      if shift { ShiftedDigitKeyRoundTrip(k); } else { PlainDigitKeyRoundTrip(k); }
    } else {
      if shift { ShiftedSymbolKeyRoundTrip(k); } else { PlainSymbolKeyRoundTrip(k); }
    }
  }

  predicate IsLetterKey(k: Key)
  {
    match k
    case KeyA | KeyB | KeyC | KeyD | KeyE | KeyF | KeyG | KeyH | KeyI | KeyJ | KeyK | KeyL | KeyM | KeyN | KeyO | KeyP | KeyQ | KeyR | KeyS | KeyT | KeyU | KeyV | KeyW | KeyX | KeyY | KeyZ => true
    case _ => false
  }

  predicate IsDigitKey(k: Key)
  {
    match k
    case Key1 | Key2 | Key3 | Key4 | Key5 | Key6 | Key7 | Key8 | Key9 | Key0 => true
    case _ => false
  }

  lemma ShiftedLetterRoundTrip(k: Key)
    requires IsLetterKey(k)
    ensures CharFor(k, true).Some? && KeyFor(CharFor(k, true).value) == Some((k, true))
  {
  }

  lemma PlainLetterRoundTrip(k: Key)
    requires IsLetterKey(k)
    ensures CharFor(k, false).Some? && KeyFor(CharFor(k, false).value) == Some((k, false))
  {
  }

  lemma ShiftedDigitKeyRoundTrip(k: Key)
    requires IsDigitKey(k)
    ensures CharFor(k, true).Some? && KeyFor(CharFor(k, true).value) == Some((k, true))
  {
  }

  lemma PlainDigitKeyRoundTrip(k: Key)
    requires IsDigitKey(k)
    ensures CharFor(k, false).Some? && KeyFor(CharFor(k, false).value) == Some((k, false))
  {
  }

  lemma ShiftedSymbolKeyRoundTrip(k: Key)
    requires !IsLetterKey(k) && !IsDigitKey(k) && CharFor(k, true).Some?
    ensures KeyFor(CharFor(k, true).value) == Some((k, true))
  {
  }

  lemma PlainSymbolKeyRoundTrip(k: Key)
    requires !IsLetterKey(k) && !IsDigitKey(k) && CharFor(k, false).Some?
    ensures KeyFor(CharFor(k, false).value) == Some((k, false))
  {
  }

  /** The table is injective. */
  lemma KeyForInjective(c1: char, c2: char)
    requires KeyFor(c1).Some? && KeyFor(c1) == KeyFor(c2)
    ensures c1 == c2
  {
    KeyForRoundTrip(c1);
    KeyForRoundTrip(c2);
  }

  /** Decoding a key's code gives the key back. */
  lemma KeyCodeRoundTrip(k: Key)
    ensures KeyOfCode(k.Code()) == Some(k)
  {
    if IsLetterKey(k) {
      LetterCodeRoundTrip(k);
    } else if IsDigitKey(k) {
      DigitCodeRoundTrip(k);
    } else {
      OtherCodeRoundTrip(k);
    }
  }

  lemma LetterCodeRoundTrip(k: Key)
    requires IsLetterKey(k)
    ensures KeyOfCode(k.Code()) == Some(k)
  {
  }

  lemma DigitCodeRoundTrip(k: Key)
    requires IsDigitKey(k)
    ensures KeyOfCode(k.Code()) == Some(k)
  {
  }

  lemma OtherCodeRoundTrip(k: Key)
    requires !IsLetterKey(k) && !IsDigitKey(k)
    ensures KeyOfCode(k.Code()) == Some(k)
  {
  }

  /** Distinct keys have distinct codes. */
  lemma KeyCodeInjective(k1: Key, k2: Key)
    requires k1.Code() == k2.Code()
    ensures k1 == k2
  {
    KeyCodeRoundTrip(k1);
    KeyCodeRoundTrip(k2);
  }

  /** Lower-case form of an upper-case ASCII letter. */
  function ToLower(c: char): char
    requires 'A' <= c <= 'Z'
  {
    (c as int + 32) as char
  }

  /** An upper-case letter is its lower-case letter's key with Shift. */
  lemma UpperIsShiftedLower(c: char)
    requires 'A' <= c <= 'Z'
    ensures KeyFor(ToLower(c)).Some? && !KeyFor(ToLower(c)).value.1
    ensures KeyFor(c) == Some((KeyFor(ToLower(c)).value.0, true))
  {
  }

  /** Lower-case letters, digits, unshifted punctuation, whitespace,
      backspace and escape are typed without Shift. */
  lemma UnshiftedCharacters(c: char)
    requires ('a' <= c <= 'z') || ('0' <= c <= '9') || PunctuationKeyFor(c).Some? || ControlKeyFor(c).Some?
    ensures KeyFor(c).Some? && !KeyFor(c).value.1
  {
    if 'a' <= c <= 'm' {
      LowerRoundTripAM(c);
    } else if 'n' <= c <= 'z' {
      LowerRoundTripNZ(c);
    } else if '0' <= c <= '9' {
      DigitRoundTrip(c);
    } else if PunctuationKeyFor(c).Some? {
      if c < '=' {
        PunctuationRoundTripLow(c);
      } else {
        PunctuationRoundTripHigh(c);
      }
    } else {
      ControlRoundTrip(c);
    }
  }

  /** Every key of the table, and the Shift and Ctrl keys the shortcuts
      hold, is declared on the virtual device; no character maps to a
      modifier. */
  lemma TableKeysDeclared(c: char)
    requires KeyFor(c).Some?
    ensures KeyFor(c).value.0 in DeviceKeys
    ensures KeyFor(c).value.0 !in {KeyLeftShift, KeyLeftCtrl, KeyLeftAlt}
    ensures KeyLeftShift in DeviceKeys && KeyLeftCtrl in DeviceKeys
  {
  }

  // ---------------------------------------------------------------------
  // string_to_keypresses

  type KeyPlan = seq<Step<InputEvent>>

  function Press(k: Key): Step<InputEvent> { Emit(InputEvent(EvKey, k.Code(), 1)) }
  function Release(k: Key): Step<InputEvent> { Emit(InputEvent(EvKey, k.Code(), 0)) }

  /** One keystroke: key `k` pressed and released, inside Shift when
      `shift` holds, then a `SYN_REPORT` and a 10 ms pause. */
  function Stroke(k: Key, shift: bool): KeyPlan
  {
    (if shift then [Press(KeyLeftShift)] else [])
    + [Press(k), Release(k)]
    + (if shift then [Release(KeyLeftShift)] else [])
    + [Emit(SynReport), Pause(10)]
  }

  /** The events typed for one character (nothing if it is unmapped). */
  function CharPlan(c: char): KeyPlan
  {
    match KeyFor(c)
    case None => []
    case Some((k, shift)) => Stroke(k, shift)
  }

  /** `string_to_keypresses` on a device that never fails. */
  function TypePlan(s: string): KeyPlan
  {
    FlatMap(CharPlan, s)
  }

  /** The characters of `s` the table maps, in order. */
  function Mapped(s: string): string
  {
    if |s| == 0 then [] else (if KeyFor(s[0]).Some? then [s[0]] else []) + Mapped(s[1..])
  }

  lemma TypePlanAppend(a: string, b: string)
    ensures TypePlan(a + b) == TypePlan(a) + TypePlan(b)
  {
    FlatMapAppend(CharPlan, a, b);
  }

  /** Unmapped characters are skipped without a trace. */
  lemma {:induction false} TypePlanSkipsUnmapped(s: string)
    ensures TypePlan(s) == TypePlan(Mapped(s))
  {
    if |s| > 0 {
      TypePlanSkipsUnmapped(s[1..]);
      if KeyFor(s[0]).Some? {
        assert Mapped(s) == [s[0]] + Mapped(s[1..]);
        assert [s[0]] + Mapped(s[1..]) == [s[0]] + Mapped(s[1..]);
        TypePlanAppend([s[0]], Mapped(s[1..]));
        assert TypePlan([s[0]]) == CharPlan(s[0]) + TypePlan([]);
      } else {
        assert Mapped(s) == Mapped(s[1..]);
      }
    }
  }

  /** Reads typed characters back from a trace of `TypePlan`: a Shift
      press opens a six-step group, any other step a four-step one. */
  function ReadTyped(t: KeyPlan): string
    decreases |t|
  {
    if |t| >= 6 && t[0] == Press(KeyLeftShift) && t[1].Emit? then
      CharOfEvent(t[1].payload, true) + ReadTyped(t[6..])
    else if |t| >= 4 && t[0].Emit? then
      CharOfEvent(t[0].payload, false) + ReadTyped(t[4..])
    else []
  }

  function CharOfEvent(e: InputEvent, shift: bool): string
  {
    match KeyOfCode(e.code)
    case None => []
    case Some(k) => match CharFor(k, shift) case None => [] case Some(c) => [c]
  }

  lemma CharPlanRead(c: char, rest: KeyPlan)
    ensures ReadTyped(CharPlan(c) + rest) == (if KeyFor(c).Some? then [c] else []) + ReadTyped(rest)
  {
    var p := CharPlan(c) + rest;
    match KeyFor(c)
    case None =>
      assert p == rest;
    case Some((k, shift)) =>
      KeyForRoundTrip(c);
      KeyCodeRoundTrip(k);
      TableKeysDeclared(c);
      if shift {
        assert p[0] == Press(KeyLeftShift);
        assert p[1] == Press(k);
        assert p[6..] == rest;
      } else {
        assert p[0] == Press(k);
        if Press(k) == Press(KeyLeftShift) {
          KeyCodeInjective(k, KeyLeftShift);
        }
        assert p[4..] == rest;
      }
  }

  /** Typing round trip: reading a typed trace back gives exactly the
      mapped characters of the input, in order. */
  lemma {:induction false} TypeRoundTrip(s: string)
    ensures ReadTyped(TypePlan(s)) == Mapped(s)
  {
    if |s| == 0 {
    } else {
      TypeRoundTrip(s[1..]);
      CharPlanRead(s[0], TypePlan(s[1..]));
    }
  }

  predicate IsShiftPress(st: Step<InputEvent>) { st == Press(KeyLeftShift) }
  predicate IsShiftRelease(st: Step<InputEvent>) { st == Release(KeyLeftShift) }
  predicate IsSync(st: Step<InputEvent>) { st == Emit(SynReport) }

  /** Number of presses of key `k` in a trace. */
  function Presses(t: KeyPlan, k: Key): nat
  {
    CountIf(t, (st: Step<InputEvent>) => st == Press(k))
  }

  lemma PressesAppend(a: KeyPlan, b: KeyPlan, k: Key)
    ensures Presses(a + b, k) == Presses(a, k) + Presses(b, k)
  {
    CountIfAppend(a, b, (st: Step<InputEvent>) => st == Press(k));
  }

  lemma PressesOne(st: Step<InputEvent>, k: Key)
    ensures Presses([st], k) == (if st == Press(k) then 1 else 0)
  {
    CountIfSnoc([], st, (st': Step<InputEvent>) => st' == Press(k));
    assert [] + [st] == [st];
  }

  /** Whether the table types `c` with Shift held. */
  predicate IsShiftedChar(c: char) { KeyFor(c).Some? && KeyFor(c).value.1 }

  /** Whether the table has an entry for `c`. */
  predicate IsMapped(c: char) { KeyFor(c).Some? }

  /** Number of characters of `s` typed with key `k`. */
  function TypedWith(s: string, k: Key): nat
  {
    CountIf(s, (c: char) => KeyFor(c).Some? && KeyFor(c).value.0 == k)
  }

  /** Number of characters of `s` typed with Shift held. */
  function Shifted(s: string): nat
  {
    CountIf(s, IsShiftedChar)
  }

  /** One keystroke, written out step by step. */
  lemma StrokeSteps(key: Key, shift: bool)
    ensures !shift ==> Stroke(key, shift) == [Press(key), Release(key), Emit(SynReport), Pause(10)]
    ensures shift ==> (Stroke(key, shift) ==
      [Press(KeyLeftShift), Press(key), Release(key), Release(KeyLeftShift), Emit(SynReport), Pause(10)])
  {
  }

  /** A keystroke of any key but Shift presses and releases Shift once
      if asked to, and never otherwise. */
  lemma StrokeShiftCounts(key: Key, shift: bool)
    requires key != KeyLeftShift
    ensures CountIf(Stroke(key, shift), IsShiftPress) == (if shift then 1 else 0)
    ensures CountIf(Stroke(key, shift), IsShiftRelease) == (if shift then 1 else 0)
  {
    StrokeSteps(key, shift);
    if Press(key) == Press(KeyLeftShift) || Release(key) == Release(KeyLeftShift) {
      KeyCodeInjective(key, KeyLeftShift);
    }
    if shift {
      CountIfSix(Press(KeyLeftShift), Press(key), Release(key), Release(KeyLeftShift), Emit(SynReport), Pause(10), IsShiftPress);
      CountIfSix(Press(KeyLeftShift), Press(key), Release(key), Release(KeyLeftShift), Emit(SynReport), Pause(10), IsShiftRelease);
    } else {
      CountIfFour(Press(key), Release(key), Emit(SynReport), Pause(10), IsShiftPress);
      CountIfFour(Press(key), Release(key), Emit(SynReport), Pause(10), IsShiftRelease);
    }
  }

  /** Every keystroke ends with exactly one `SYN_REPORT`. */
  lemma StrokeSyncCount(key: Key, shift: bool)
    ensures CountIf(Stroke(key, shift), IsSync) == 1
  {
    StrokeSteps(key, shift);
    if shift {
      CountIfSix(Press(KeyLeftShift), Press(key), Release(key), Release(KeyLeftShift), Emit(SynReport), Pause(10), IsSync);
    } else {
      CountIfFour(Press(key), Release(key), Emit(SynReport), Pause(10), IsSync);
    }
  }

  /** A keystroke presses its own key once and no other key but Shift. */
  lemma StrokePresses(key: Key, shift: bool, k: Key)
    requires k != KeyLeftShift
    ensures Presses(Stroke(key, shift), k) == (if key == k then 1 else 0)
  {
    StrokeSteps(key, shift);
    var isK := (st: Step<InputEvent>) => st == Press(k);
    if Press(k) == Press(key) { KeyCodeInjective(k, key); }
    if Press(k) == Press(KeyLeftShift) { KeyCodeInjective(k, KeyLeftShift); }
    if shift {
      CountIfSix(Press(KeyLeftShift), Press(key), Release(key), Release(KeyLeftShift), Emit(SynReport), Pause(10), isK);
    } else {
      CountIfFour(Press(key), Release(key), Emit(SynReport), Pause(10), isK);
    }
  }

  /** A keystroke costs the device three emissions, five with Shift. */
  lemma StrokeEmissions(key: Key, shift: bool)
    ensures Emissions(Stroke(key, shift)) == (if shift then 5 else 3)
  {
    StrokeSteps(key, shift);
    EmissionsCount(Stroke(key, shift));
    if shift {
      CountIfSix(Press(KeyLeftShift), Press(key), Release(key), Release(KeyLeftShift), Emit(SynReport), Pause(10), IsEmission);
    } else {
      CountIfFour(Press(key), Release(key), Emit(SynReport), Pause(10), IsEmission);
    }
  }

  /** What one character contributes to the counts of a trace. */
  lemma CharPlanCounts(c: char, k: Key)
    requires k != KeyLeftShift
    ensures CountIf(CharPlan(c), IsShiftPress) == (if IsShiftedChar(c) then 1 else 0)
    ensures CountIf(CharPlan(c), IsShiftRelease) == (if IsShiftedChar(c) then 1 else 0)
    ensures CountIf(CharPlan(c), IsSync) == (if IsMapped(c) then 1 else 0)
    ensures Presses(CharPlan(c), k) == (if KeyFor(c).Some? && KeyFor(c).value.0 == k then 1 else 0)
  {
    match KeyFor(c)
    case None =>
    case Some((key, shift)) =>
      TableKeysDeclared(c);
      StrokeShiftCounts(key, shift);
      StrokeSyncCount(key, shift);
      StrokePresses(key, shift, k);
  }

  lemma {:induction false} MappedCount(s: string)
    ensures |Mapped(s)| == CountIf(s, IsMapped)
  {
    if |s| > 0 {
      MappedCount(s[1..]);
      assert s == [s[0]] + s[1..];
      CountIfCons(s[0], s[1..], IsMapped);
    }
  }

  /** After typing `s`: Shift is pressed and released once per shifted
      character, one `SYN_REPORT` closes each mapped character, and key
      `k` is pressed once per character typed with it. */
  lemma TypeCounts(s: string, k: Key)
    requires k != KeyLeftShift
    ensures CountIf(TypePlan(s), IsShiftPress) == Shifted(s)
    ensures CountIf(TypePlan(s), IsShiftRelease) == Shifted(s)
    ensures CountIf(TypePlan(s), IsSync) == |Mapped(s)|
    ensures Presses(TypePlan(s), k) == TypedWith(s, k)
  {
    forall c: char
      ensures CountIf(CharPlan(c), IsShiftPress) == (if IsShiftedChar(c) then 1 else 0)
      ensures CountIf(CharPlan(c), IsShiftRelease) == (if IsShiftedChar(c) then 1 else 0)
      ensures CountIf(CharPlan(c), IsSync) == (if IsMapped(c) then 1 else 0)
      ensures CountIf(CharPlan(c), (st: Step<InputEvent>) => st == Press(k)) ==
              (if (KeyFor(c).Some? && KeyFor(c).value.0 == k) then 1 else 0)
    {
      CharPlanCounts(c, k);
    }
    FlatMapCount(CharPlan, s, IsShiftPress, IsShiftedChar);
    FlatMapCount(CharPlan, s, IsShiftRelease, IsShiftedChar);
    FlatMapCount(CharPlan, s, IsSync, IsMapped);
    FlatMapCount(CharPlan, s, (st: Step<InputEvent>) => st == Press(k), (c: char) => KeyFor(c).Some? && KeyFor(c).value.0 == k);
    MappedCount(s);
  }

  // ---------------------------------------------------------------------
  // key_cmd and its wrappers

  /** `key_cmd`: Ctrl held (and Shift too when asked) around typing `button`. */
  function KeyCmdPlan(button: string, shift: bool): (r: KeyPlan)
    ensures |r| >= 2 && r[0] == Press(KeyLeftCtrl) && r[|r| - 1] == Release(KeyLeftCtrl)
    ensures shift ==> |r| >= 4 && r[1] == Press(KeyLeftShift) && r[|r| - 2] == Release(KeyLeftShift)
                      && r[2..|r| - 2] == TypePlan(button)
    ensures !shift ==> r[1..|r| - 1] == TypePlan(button)
  {
    [Press(KeyLeftCtrl)]
    + (if shift then [Press(KeyLeftShift)] else [])
    + TypePlan(button)
    + (if shift then [Release(KeyLeftShift)] else [])
    + [Release(KeyLeftCtrl)]
  }

  /** The text styles the tablet switches with Ctrl+digit. */
  datatype TextStyle = Title | Subheading | Body | Bullet

  /** `key_cmd_title`, `key_cmd_subheading`, `key_cmd_body`, `key_cmd_bullet`:
      Ctrl with the digits 1 to 4, never with Shift. */
  function StylePlan(style: TextStyle): (r: KeyPlan)
    ensures var d := match style
                     case Title => Key1
                     case Subheading => Key2
                     case Body => Key3
                     case Bullet => Key4;
            r == [Press(KeyLeftCtrl), Press(d), Release(d), Emit(SynReport), Pause(10), Release(KeyLeftCtrl)]
  {
    var digit := match style
                 case Title => "1"
                 case Subheading => "2"
                 case Body => "3"
                 case Bullet => "4";
    assert digit[1..] == [];
    KeyCmdPlan(digit, false)
  }

  // ---------------------------------------------------------------------
  // progress marks

  /** The keyboard's own state: the number of progress marks on screen. */
  datatype Keyboard = Keyboard(progressCount: nat)

  /** A keyboard state together with what the device received. */
  datatype Typed = Typed(kb: Keyboard, sent: Sent<InputEvent>)

  /** `progress`: type one '.', and count it only if typing succeeded. */
  function Progress(kb: Keyboard, budget: nat): (r: Typed)
    ensures r.sent == Run(Stroke(KeyDot, false), budget)
    ensures r.sent.ok <==> budget >= 3
    ensures r.sent.ok ==> r.kb.progressCount == kb.progressCount + 1 && r.sent.left == budget - 3
    ensures !r.sent.ok ==> r.kb == kb
    ensures r.sent.ok ==> Presses(r.sent.trace, KeyDot) == 1 && Presses(r.sent.trace, KeyBackspace) == 0
  {
    StrokeEmissions(KeyDot, false);
    StrokePresses(KeyDot, false, KeyDot);
    StrokePresses(KeyDot, false, KeyBackspace);
    var s := Run(Stroke(KeyDot, false), budget);
    if s.ok then Typed(kb.(progressCount := kb.progressCount + 1), s) else Typed(kb, s)
  }

  /** The table sends '.' and the backspace character as single unshifted
      keystrokes, so `progress` and `progress_end` type just those. */
  lemma MarkCharacters()
    ensures TypePlan(".") == Stroke(KeyDot, false)
    ensures TypePlan("\U{8}") == Stroke(KeyBackspace, false)
  {
    assert "."[1..] == [];
    assert "\U{8}"[1..] == [];
  }

  /** `n` copies of a plan, one after the other. */
  function Repeat(p: KeyPlan, n: nat): KeyPlan
  {
    if n == 0 then [] else Repeat(p, n - 1) + p
  }

  lemma {:induction false} RepeatCount(p: KeyPlan, n: nat, q: Step<InputEvent> -> bool)
    ensures CountIf(Repeat(p, n), q) == n * CountIf(p, q)
  {
    if n > 0 {
      var c := CountIf(p, q);
      RepeatCount(p, n - 1, q);
      CountIfAppend(Repeat(p, n - 1), p, q);
      assert n * c == (n - 1) * c + c;
    }
  }

  /** `progress_end`: one backspace per counted mark, then the count is
      reset; a failure part-way leaves the count as it was. */
  function ProgressEnd(kb: Keyboard, budget: nat): (r: Typed)
    ensures r.sent == Run(Repeat(Stroke(KeyBackspace, false), kb.progressCount), budget)
    ensures r.sent.ok <==> budget >= 3 * kb.progressCount
    ensures r.sent.ok ==> r.kb.progressCount == 0 && r.sent.left == budget - 3 * kb.progressCount
    ensures r.sent.ok ==> Presses(r.sent.trace, KeyBackspace) == kb.progressCount
    ensures r.sent.ok ==> Presses(r.sent.trace, KeyDot) == 0
    ensures !r.sent.ok ==> r.kb == kb
  {
    var bs := Stroke(KeyBackspace, false);
    Backspaces(kb.progressCount);
    var s := Run(Repeat(bs, kb.progressCount), budget);
    if s.ok then Typed(Keyboard(0), s) else Typed(kb, s)
  }

  /** `n` backspace keystrokes: `3n` emissions, `n` backspace presses and
      no dot. */
  lemma Backspaces(n: nat)
    ensures Emissions(Repeat(Stroke(KeyBackspace, false), n)) == 3 * n
    ensures Presses(Repeat(Stroke(KeyBackspace, false), n), KeyBackspace) == n
    ensures Presses(Repeat(Stroke(KeyBackspace, false), n), KeyDot) == 0
  {
    var bs := Stroke(KeyBackspace, false);
    StrokeEmissions(KeyBackspace, false);
    StrokePresses(KeyBackspace, false, KeyBackspace);
    StrokePresses(KeyBackspace, false, KeyDot);
    RepeatCount(bs, n, (st: Step<InputEvent>) => st == Press(KeyBackspace));
    RepeatCount(bs, n, (st: Step<InputEvent>) => st == Press(KeyDot));
    RepeatCount(bs, n, IsEmission);
    EmissionsCount(bs);
    EmissionsCount(Repeat(bs, n));
  }

  /** The keyboard operations that touch the progress count. */
  datatype ProgressOp = Mark | EraseMarks

  /** A run of progress operations: the keyboard, the whole trace, and
      whether (and with what budget) the device is still accepting. */
  datatype Session = Session(kb: Keyboard, trace: KeyPlan, ok: bool, left: nat)

  function Step1(s: Session, op: ProgressOp): Session
  {
    if !s.ok then s
    else
      var t := match op
               case Mark => Progress(s.kb, s.left)
               case EraseMarks => ProgressEnd(s.kb, s.left);
      Session(t.kb, s.trace + t.sent.trace, t.sent.ok, t.sent.left)
  }

  function Apply(s: Session, ops: seq<ProgressOp>): Session
  {
    if |ops| == 0 then s else Step1(Apply(s, ops[..|ops| - 1]), ops[|ops| - 1])
  }

  /** As long as the device accepts every emission, the dots typed by
      `progress` minus the backspaces typed by `progress_end` is exactly
      the progress count: erasing removes precisely the marks shown. */
  lemma {:induction false} ProgressBalance(ops: seq<ProgressOp>, budget: nat)
    ensures var s := Apply(Session(Keyboard(0), [], true, budget), ops);
            s.ok ==> Presses(s.trace, KeyDot) == Presses(s.trace, KeyBackspace) + s.kb.progressCount
  {
    var s0 := Session(Keyboard(0), [], true, budget);
    if |ops| > 0 {
      var prev := Apply(s0, ops[..|ops| - 1]);
      ProgressBalance(ops[..|ops| - 1], budget);
      if prev.ok {
        var t := match ops[|ops| - 1]
                 case Mark => Progress(prev.kb, prev.left)
                 case EraseMarks => ProgressEnd(prev.kb, prev.left);
        CountIfAppend(prev.trace, t.sent.trace, (st: Step<InputEvent>) => st == Press(KeyDot));
        CountIfAppend(prev.trace, t.sent.trace, (st: Step<InputEvent>) => st == Press(KeyBackspace));
      }
    }
  }

  function Marks(n: nat): seq<ProgressOp>
  {
    if n == 0 then [] else Marks(n - 1) + [Mark]
  }

  lemma {:induction false} MarksState(n: nat, budget: nat)
    requires budget >= 3 * n
    ensures var s := Apply(Session(Keyboard(0), [], true, budget), Marks(n));
            s.ok && s.kb.progressCount == n && s.left == budget - 3 * n &&
            Presses(s.trace, KeyDot) == n && Presses(s.trace, KeyBackspace) == 0
  {
    if n > 0 {
      MarksState(n - 1, budget);
      var m := Marks(n);
      assert m[..|m| - 1] == Marks(n - 1);
      var prev := Apply(Session(Keyboard(0), [], true, budget), Marks(n - 1));
      var t := Progress(prev.kb, prev.left);
      CountIfAppend(prev.trace, t.sent.trace, (st: Step<InputEvent>) => st == Press(KeyDot));
      CountIfAppend(prev.trace, t.sent.trace, (st: Step<InputEvent>) => st == Press(KeyBackspace));
    }
  }

  /** `n` marks followed by one erase type exactly `n` dots and `n`
      backspaces and leave the count at 0, given a device that accepts
      them all. */
  lemma MarksThenErase(n: nat, budget: nat)
    requires budget >= 6 * n
    ensures var s := Apply(Session(Keyboard(0), [], true, budget), Marks(n) + [EraseMarks]);
            s.ok && s.kb.progressCount == 0 &&
            Presses(s.trace, KeyBackspace) == n && Presses(s.trace, KeyDot) == n
  {
    var s0 := Session(Keyboard(0), [], true, budget);
    MarksState(n, budget);
    var ops := Marks(n) + [EraseMarks];
    assert ops[..|ops| - 1] == Marks(n);
    var prev := Apply(s0, Marks(n));
    var t := ProgressEnd(prev.kb, prev.left);
    CountIfAppend(prev.trace, t.sent.trace, (st: Step<InputEvent>) => st == Press(KeyDot));
    CountIfAppend(prev.trace, t.sent.trace, (st: Step<InputEvent>) => st == Press(KeyBackspace));
  }
}
