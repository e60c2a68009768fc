/** The platform-independent key identity (`KeyCode`, src/input_handler.rs)
    and the build-time choice of one backend per target operating system. */
module Keys {
  import opened Prelude

  /** The closed set of keys the crate can query. Every variant is a plain
      tag without payload, so two keys are equal exactly when they are the
      same variant; a value of this type is copied, never shared. */
  datatype KeyCode =
    | KeyEsc
    | Key1
    | Key2
    | Key3
    | Key4
    | Key5
    | Key6
    | Key7
    | Key8
    | Key9
    | Key0
    | KeyMinus
    | KeyEqual
    | KeyBackspace
    | KeyTab
    | KeyQ
    | KeyW
    | KeyE
    | KeyR
    | KeyT
    | KeyY
    | KeyU
    | KeyI
    | KeyO
    | KeyP
    | KeyLeftBrace
    | KeyRightBrace
    | KeyEnter
    | KeyLeftCtrl
    | KeyA
    | KeyS
    | KeyD
    | KeyF
    | KeyG
    | KeyH
    | KeyJ
    | KeyK
    | KeyL
    | KeySemicolon
    | KeyApostrophe
    | KeyGrave
    | KeyLeftShift
    | KeyBackslash
    | KeyZ
    | KeyX
    | KeyC
    | KeyV
    | KeyB
    | KeyN
    | KeyM
    | KeyComma
    | KeyDot
    | KeySlash
    | KeyRightShift
    | KeyKpAsterisk
    | KeyLeftAlt
    | KeySpace
    | KeyCapslock
    | KeyF1
    | KeyF2
    | KeyF3
    | KeyF4
    | KeyF5
    | KeyF6
    | KeyF7
    | KeyF8
    | KeyF9
    | KeyF10
    | KeyF11
    | KeyF12
    | KeyUp
    | KeyDown
    | KeyLeft
    | KeyRight

  /** The letter key whose letter has uppercase ASCII code `ascii`
      ('A' is 0x41, ..., 'Z' is 0x5A). */
  function LetterKey(ascii: int): (k: Option<KeyCode>)
    ensures k.Some? <==> 0x41 <= ascii <= 0x5A
  {
    match ascii
    case 0x41 => Some(KeyA)
    case 0x42 => Some(KeyB)
    case 0x43 => Some(KeyC)
    case 0x44 => Some(KeyD)
    case 0x45 => Some(KeyE)
    case 0x46 => Some(KeyF)
    case 0x47 => Some(KeyG)
    case 0x48 => Some(KeyH)
    case 0x49 => Some(KeyI)
    case 0x4A => Some(KeyJ)
    case 0x4B => Some(KeyK)
    case 0x4C => Some(KeyL)
    case 0x4D => Some(KeyM)
    case 0x4E => Some(KeyN)
    case 0x4F => Some(KeyO)
    case 0x50 => Some(KeyP)
    case 0x51 => Some(KeyQ)
    case 0x52 => Some(KeyR)
    case 0x53 => Some(KeyS)
    case 0x54 => Some(KeyT)
    case 0x55 => Some(KeyU)
    case 0x56 => Some(KeyV)
    case 0x57 => Some(KeyW)
    case 0x58 => Some(KeyX)
    case 0x59 => Some(KeyY)
    case 0x5A => Some(KeyZ)
    case _ => None
  }

  /** The main-block key printed with the digit `d`. */
  function DigitKey(d: int): (k: Option<KeyCode>)
    ensures k.Some? <==> 0 <= d <= 9
  {
    match d
    case 0 => Some(Key0)
    case 1 => Some(Key1)
    case 2 => Some(Key2)
    case 3 => Some(Key3)
    case 4 => Some(Key4)
    case 5 => Some(Key5)
    case 6 => Some(Key6)
    case 7 => Some(Key7)
    case 8 => Some(Key8)
    case 9 => Some(Key9)
    case _ => None
  }

  /** The function key F`n`. */
  function FunctionKey(n: int): (k: Option<KeyCode>)
    ensures k.Some? <==> 1 <= n <= 12
  {
    match n
    case 1 => Some(KeyF1)
    case 2 => Some(KeyF2)
    case 3 => Some(KeyF3)
    case 4 => Some(KeyF4)
    case 5 => Some(KeyF5)
    case 6 => Some(KeyF6)
    case 7 => Some(KeyF7)
    case 8 => Some(KeyF8)
    case 9 => Some(KeyF9)
    case 10 => Some(KeyF10)
    case 11 => Some(KeyF11)
    case 12 => Some(KeyF12)
    case _ => None
  }

  // ---------------------------------------------------------------------
  // Backend selection: each `#[cfg(target_os = ...)]` arm of
  // src/input_handler.rs compiles one backend module and re-exports its
  // `InputHandler`.

  datatype TargetOs = Linux | Windows | MacOs | OtherOs

  /** The three backends the crate knows of. */
  datatype Backend = EvdevBackend | Win32Backend | CoreGraphicsBackend

  /** The target operating system named by a backend's `cfg` attribute. */
  function CfgTarget(b: Backend): TargetOs
  {
    match b
    case EvdevBackend => Linux
    case Win32Backend => Windows
    case CoreGraphicsBackend => MacOs
  }

  /** The backends whose `InputHandler` is re-exported when building for `os`:
      the union of the three `cfg` arms. */
  function SelectedBackends(os: TargetOs): (s: set<Backend>)
    ensures forall b :: b in s ==> CfgTarget(b) == os
  {
    (if os == Linux then {EvdevBackend} else {}) +
    (if os == Windows then {Win32Backend} else {}) +
    (if os == MacOs then {CoreGraphicsBackend} else {})
  }

  /** The arms are mutually exclusive and cover the three supported targets:
      exactly one backend is compiled for each of them, none for any other. */
  lemma ExactlyOneBackend(os: TargetOs)
    ensures os != OtherOs ==> |SelectedBackends(os)| == 1
    ensures os == OtherOs ==> SelectedBackends(os) == {}
    ensures forall b :: CfgTarget(b) == os ==> b in SelectedBackends(os)
  {
  }
}
