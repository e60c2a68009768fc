/** The Windows backend (src/input_handler/windows.rs): keys are translated
    to Win32 virtual-key codes and each query asks `GetAsyncKeyState`, whose
    answer is taken as a parameter here. */
module Windows {
  import opened Prelude
  import opened Keys

  /** The Win32 virtual-key code of each key (`to_virtual_key`). The match has
      an arm for every variant and no fallback. */
  function ToVirtualKey(key: KeyCode): (vk: u16)
    ensures 0x08 <= vk <= 0xDE
    ensures FromVirtualKey(vk) == Some(key)
  {
    match key
    case KeyEsc => 0x1B
    case Key1 => 0x31
    case Key2 => 0x32
    case Key3 => 0x33
    case Key4 => 0x34
    case Key5 => 0x35
    case Key6 => 0x36
    case Key7 => 0x37
    case Key8 => 0x38
    case Key9 => 0x39
    case Key0 => 0x30
    case KeyMinus => 0xBD
    case KeyEqual => 0xBB
    case KeyBackspace => 0x08
    case KeyTab => 0x09
    case KeyQ => 0x51
    case KeyW => 0x57
    case KeyE => 0x45
    case KeyR => 0x52
    case KeyT => 0x54
    case KeyY => 0x59
    case KeyU => 0x55
    case KeyI => 0x49
    case KeyO => 0x4F
    case KeyP => 0x50
    case KeyLeftBrace => 0xDB
    case KeyRightBrace => 0xDD
    case KeyEnter => 0x0D
    case KeyLeftCtrl => 0xA2
    case KeyA => 0x41
    case KeyS => 0x53
    case KeyD => 0x44
    case KeyF => 0x46
    case KeyG => 0x47
    case KeyH => 0x48
    case KeyJ => 0x4A
    case KeyK => 0x4B
    case KeyL => 0x4C
    case KeySemicolon => 0xBA
    case KeyApostrophe => 0xDE
    case KeyGrave => 0xC0
    case KeyLeftShift => 0xA0
    case KeyBackslash => 0xDC
    case KeyZ => 0x5A
    case KeyX => 0x58
    case KeyC => 0x43
    case KeyV => 0x56
    case KeyB => 0x42
    case KeyN => 0x4E
    case KeyM => 0x4D
    case KeyComma => 0xBC
    case KeyDot => 0xBE
    case KeySlash => 0xBF
    case KeyRightShift => 0xA1
    case KeyKpAsterisk => 0x6A
    case KeyLeftAlt => 0xA4
    case KeySpace => 0x20
    case KeyCapslock => 0x14
    case KeyF1 => 0x70
    case KeyF2 => 0x71
    case KeyF3 => 0x72
    case KeyF4 => 0x73
    case KeyF5 => 0x74
    case KeyF6 => 0x75
    case KeyF7 => 0x76
    case KeyF8 => 0x77
    case KeyF9 => 0x78
    case KeyF10 => 0x79
    case KeyF11 => 0x7A
    case KeyF12 => 0x7B
    case KeyUp => 0x26
    case KeyDown => 0x28
    case KeyLeft => 0x25
    case KeyRight => 0x27
  }

  /** The key with virtual-key code `vk`, following the layout of the Win32
      code space: control keys and arrows below 0x30, digits at their ASCII
      codes, letters at their uppercase ASCII codes, the numeric-keypad
      multiply key, F1 to F12 from 0x70, then the modifier and OEM
      punctuation keys from 0xA0. */
  function FromVirtualKey(vk: int): Option<KeyCode>
  {
    if vk < 0x30 then
      match vk
      case 0x08 => Some(KeyBackspace)
      case 0x09 => Some(KeyTab)
      case 0x0D => Some(KeyEnter)
      case 0x14 => Some(KeyCapslock)
      case 0x1B => Some(KeyEsc)
      case 0x20 => Some(KeySpace)
      case 0x25 => Some(KeyLeft)
      case 0x26 => Some(KeyUp)
      case 0x27 => Some(KeyRight)
      case 0x28 => Some(KeyDown)
      case _ => None
    else if vk <= 0x39 then DigitKey(vk - 0x30)
    else if vk <= 0x5A then LetterKey(vk)
    else if vk < 0xA0 then
      if vk == 0x6A then Some(KeyKpAsterisk)
      else FunctionKey(vk - 0x6F)
    else
      match vk
      case 0xA0 => Some(KeyLeftShift)
      case 0xA1 => Some(KeyRightShift)
      case 0xA2 => Some(KeyLeftCtrl)
      case 0xA4 => Some(KeyLeftAlt)
      case 0xBA => Some(KeySemicolon)
      case 0xBB => Some(KeyEqual)
      case 0xBC => Some(KeyComma)
      case 0xBD => Some(KeyMinus)
      case 0xBE => Some(KeyDot)
      case 0xBF => Some(KeySlash)
      case 0xC0 => Some(KeyGrave)
      case 0xDB => Some(KeyLeftBrace)
      case 0xDC => Some(KeyBackslash)
      case 0xDD => Some(KeyRightBrace)
      case 0xDE => Some(KeyApostrophe)
      case _ => None
  }

  /** Distinct keys never share a virtual-key code. */
  lemma VirtualKeyInjective(a: KeyCode, b: KeyCode)
    ensures ToVirtualKey(a) == ToVirtualKey(b) ==> a == b
  {
  }

  /** A key whose code lies in 0x41..0x5A is the letter key of that ASCII code. */
  lemma LetterRange(k: KeyCode)
    ensures 0x41 <= ToVirtualKey(k) <= 0x5A ==> LetterKey(ToVirtualKey(k)) == Some(k)
  {
  }

  /** Each letter key has its letter's uppercase ASCII code. */
  lemma LetterCodes(ascii: int)
    requires 0x41 <= ascii <= 0x5A
    ensures ToVirtualKey(LetterKey(ascii).value) == ascii
  {
  }

  /** A key whose code lies in 0x30..0x39 is the digit key of that ASCII code. */
  lemma DigitRange(k: KeyCode)
    ensures 0x30 <= ToVirtualKey(k) <= 0x39 ==> DigitKey(ToVirtualKey(k) - 0x30) == Some(k)
  {
  }

  /** Each digit key has its digit's ASCII code. */
  lemma DigitCodes(d: int)
    requires 0 <= d <= 9
    ensures ToVirtualKey(DigitKey(d).value) == 0x30 + d
  {
  }

  /** A key whose code lies in 0x70..0x7B is the function key of that offset. */
  lemma FunctionRange(k: KeyCode)
    ensures 0x70 <= ToVirtualKey(k) <= 0x7B ==> FunctionKey(ToVirtualKey(k) - 0x6F) == Some(k)
  {
  }

  /** F1 to F12 take the consecutive codes 0x70 to 0x7B. */
  lemma FunctionCodes(n: int)
    requires 1 <= n <= 12
    ensures ToVirtualKey(FunctionKey(n).value) == 0x6F + n
  {
  }

  /** Reinterprets a signed 16-bit value as unsigned (Rust `as u16`): the same
      bit pattern, so the two agree modulo 2^16. */
  function AsUnsigned(s: i16): (w: u16)
    ensures (w - s) % 0x1_0000 == 0
  {
    if s < 0 then s + 0x1_0000 else s
  }

  /** The "key is down" flag of a `GetAsyncKeyState` result: the test
      `w & 0x8000 != 0`, that is, bit 15 of the unsigned reading. */
  predicate HighBitSet(w: u16)
    ensures HighBitSet(w) <==> w >= 0x8000
  {
    (w / 0x8000) % 2 == 1
  }

  /** The arithmetic reading agrees with the bitwise test on the 16-bit word. */
  lemma HighBitMatchesMask(w: bv16)
    ensures (w & 0x8000 != 0) <==> HighBitSet(w as int)
  {
    MaskIsUpperHalf(w);
    UpperHalfAsInt(w);
  }

  /** On the bit-vector, the mask test is a comparison. */
  lemma MaskIsUpperHalf(w: bv16)
    ensures (w & 0x8000 != 0) <==> w >= 0x8000
  {
  }

  /** The comparison survives the conversion to an integer. */
  lemma UpperHalfAsInt(w: bv16)
    ensures w >= 0x8000 <==> w as int >= 0x8000
  {
  }

  /** The high bit of the unsigned reading is exactly the sign of the signed
      one: a key is down precisely when the state is negative. */
  lemma HighBitIsSign(s: i16)
    ensures HighBitSet(AsUnsigned(s)) <==> s < 0
  {
  }

  /** Only bit 15 matters: replacing the fifteen low bits of a state word by
      any others leaves the flag as it was. */
  lemma LowBitsIgnored(w: u16, low: int)
    requires 0 <= low < 0x8000
    ensures HighBitSet((w / 0x8000) * 0x8000 + low) == HighBitSet(w)
  {
  }

  /** The Win32 handler keeps no state of its own: every query asks the
      operating system, which is passed in as `asyncKeyState`, standing for
      `GetAsyncKeyState` applied to a virtual-key code. */
  datatype InputHandler = InputHandler {

    /** A key is pressed when the state reported for its virtual-key code has
        its high bit set, that is, when that state is negative. The low bits,
        such as the "pressed since the last call" bit, play no part. */
    function IsPressed(key: KeyCode, asyncKeyState: u16 -> i16): (b: bool)
      ensures b <==> asyncKeyState(ToVirtualKey(key)) < 0
    {
      HighBitIsSign(asyncKeyState(ToVirtualKey(key)));
      HighBitSet(AsUnsigned(asyncKeyState(ToVirtualKey(key))))
    }
  }

  /** `new`: the handler has no fields to set up. */
  function New(): InputHandler
  {
    InputHandler
  }

  /** The handler is a unit value: `new` returns the only one there is. */
  lemma OnlyHandler(h: InputHandler)
    ensures h == New()
  {
  }

  /** When the operating system reports a single virtual-key code as down, at
      most one key is pressed, and it is the key with that code. */
  lemma SingleKeyDown(h: InputHandler, asyncKeyState: u16 -> i16, down: u16, a: KeyCode, b: KeyCode)
    requires forall v :: asyncKeyState(v) < 0 ==> v == down
    ensures h.IsPressed(a, asyncKeyState) ==> ToVirtualKey(a) == down
    ensures h.IsPressed(a, asyncKeyState) && h.IsPressed(b, asyncKeyState) ==> a == b
  {
    VirtualKeyInjective(a, b);
  }

  /** The handler has no state: the answer for a key depends on nothing but
      the state the operating system reports for that key's code. */
  lemma DependsOnlyOnOwnCode(h1: InputHandler, h2: InputHandler, key: KeyCode, s1: u16 -> i16, s2: u16 -> i16)
    requires s1(ToVirtualKey(key)) == s2(ToVirtualKey(key))
    ensures h1.IsPressed(key, s1) == h2.IsPressed(key, s2)
  {
  }
}
