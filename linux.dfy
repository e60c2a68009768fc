/** The Linux backend (src/input_handler/linux.rs): keys are translated to
    evdev key codes, and a background thread folds the key events read from
    every input device into a table of 0x300 flags, one per evdev code. */
module Linux {
  import opened Prelude
  import opened Keys

  /** Number of entries in the pressed-key table (`KEY_COUNT`). */
  const KEY_COUNT: nat := 0x300

  // Key codes from linux/input-event-codes.h, as exposed by evdev::KeyCode.
  const KEY_ESC: u16 := 1
  const KEY_1: u16 := 2
  const KEY_2: u16 := 3
  const KEY_3: u16 := 4
  const KEY_4: u16 := 5
  const KEY_5: u16 := 6
  const KEY_6: u16 := 7
  const KEY_7: u16 := 8
  const KEY_8: u16 := 9
  const KEY_9: u16 := 10
  const KEY_0: u16 := 11
  const KEY_MINUS: u16 := 12
  const KEY_EQUAL: u16 := 13
  const KEY_BACKSPACE: u16 := 14
  const KEY_TAB: u16 := 15
  const KEY_Q: u16 := 16
  const KEY_W: u16 := 17
  const KEY_E: u16 := 18
  const KEY_R: u16 := 19
  const KEY_T: u16 := 20
  const KEY_Y: u16 := 21
  const KEY_U: u16 := 22
  const KEY_I: u16 := 23
  const KEY_O: u16 := 24
  const KEY_P: u16 := 25
  const KEY_LEFTBRACE: u16 := 26
  const KEY_RIGHTBRACE: u16 := 27
  const KEY_ENTER: u16 := 28
  const KEY_LEFTCTRL: u16 := 29
  const KEY_A: u16 := 30
  const KEY_S: u16 := 31
  const KEY_D: u16 := 32
  const KEY_F: u16 := 33
  const KEY_G: u16 := 34
  const KEY_H: u16 := 35
  const KEY_J: u16 := 36
  const KEY_K: u16 := 37
  const KEY_L: u16 := 38
  const KEY_SEMICOLON: u16 := 39
  const KEY_APOSTROPHE: u16 := 40
  const KEY_GRAVE: u16 := 41
  const KEY_LEFTSHIFT: u16 := 42
  const KEY_BACKSLASH: u16 := 43
  const KEY_Z: u16 := 44
  const KEY_X: u16 := 45
  const KEY_C: u16 := 46
  const KEY_V: u16 := 47
  const KEY_B: u16 := 48
  const KEY_N: u16 := 49
  const KEY_M: u16 := 50
  const KEY_COMMA: u16 := 51
  const KEY_DOT: u16 := 52
  const KEY_SLASH: u16 := 53
  const KEY_RIGHTSHIFT: u16 := 54
  const KEY_KPASTERISK: u16 := 55
  const KEY_LEFTALT: u16 := 56
  const KEY_SPACE: u16 := 57
  const KEY_CAPSLOCK: u16 := 58
  const KEY_F1: u16 := 59
  const KEY_F2: u16 := 60
  const KEY_F3: u16 := 61
  const KEY_F4: u16 := 62
  const KEY_F5: u16 := 63
  const KEY_F6: u16 := 64
  const KEY_F7: u16 := 65
  const KEY_F8: u16 := 66
  const KEY_F9: u16 := 67
  const KEY_F10: u16 := 68
  const KEY_F11: u16 := 87
  const KEY_F12: u16 := 88
  const KEY_UP: u16 := 103
  const KEY_DOWN: u16 := 108
  const KEY_LEFT: u16 := 105
  const KEY_RIGHT: u16 := 106

  /** The evdev key code of each key (`to_evdev_code`). The match has an arm
      for every variant and no fallback. */
  function ToEvdevCode(key: KeyCode): (code: u16)
    ensures 1 <= code < KEY_COUNT
    ensures FromEvdevCode(code) == Some(key)
  {
    match key
    case KeyEsc => KEY_ESC
    case Key1 => KEY_1
    case Key2 => KEY_2
    case Key3 => KEY_3
    case Key4 => KEY_4
    case Key5 => KEY_5
    case Key6 => KEY_6
    case Key7 => KEY_7
    case Key8 => KEY_8
    case Key9 => KEY_9
    case Key0 => KEY_0
    case KeyMinus => KEY_MINUS
    case KeyEqual => KEY_EQUAL
    case KeyBackspace => KEY_BACKSPACE
    case KeyTab => KEY_TAB
    case KeyQ => KEY_Q
    case KeyW => KEY_W
    case KeyE => KEY_E
    case KeyR => KEY_R
    case KeyT => KEY_T
    case KeyY => KEY_Y
    case KeyU => KEY_U
    case KeyI => KEY_I
    case KeyO => KEY_O
    case KeyP => KEY_P
    case KeyLeftBrace => KEY_LEFTBRACE
    case KeyRightBrace => KEY_RIGHTBRACE
    case KeyEnter => KEY_ENTER
    case KeyLeftCtrl => KEY_LEFTCTRL
    case KeyA => KEY_A
    case KeyS => KEY_S
    case KeyD => KEY_D
    case KeyF => KEY_F
    case KeyG => KEY_G
    case KeyH => KEY_H
    case KeyJ => KEY_J
    case KeyK => KEY_K
    case KeyL => KEY_L
    case KeySemicolon => KEY_SEMICOLON
    case KeyApostrophe => KEY_APOSTROPHE
    case KeyGrave => KEY_GRAVE
    case KeyLeftShift => KEY_LEFTSHIFT
    case KeyBackslash => KEY_BACKSLASH
    case KeyZ => KEY_Z
    case KeyX => KEY_X
    case KeyC => KEY_C
    case KeyV => KEY_V
    case KeyB => KEY_B
    case KeyN => KEY_N
    case KeyM => KEY_M
    case KeyComma => KEY_COMMA
    case KeyDot => KEY_DOT
    case KeySlash => KEY_SLASH
    case KeyRightShift => KEY_RIGHTSHIFT
    case KeyKpAsterisk => KEY_KPASTERISK
    case KeyLeftAlt => KEY_LEFTALT
    case KeySpace => KEY_SPACE
    case KeyCapslock => KEY_CAPSLOCK
    case KeyF1 => KEY_F1
    case KeyF2 => KEY_F2
    case KeyF3 => KEY_F3
    case KeyF4 => KEY_F4
    case KeyF5 => KEY_F5
    case KeyF6 => KEY_F6
    case KeyF7 => KEY_F7
    case KeyF8 => KEY_F8
    case KeyF9 => KEY_F9
    case KeyF10 => KEY_F10
    case KeyF11 => KEY_F11
    case KeyF12 => KEY_F12
    case KeyUp => KEY_UP
    case KeyDown => KEY_DOWN
    case KeyLeft => KEY_LEFT
    case KeyRight => KEY_RIGHT
  }

  /** The key with evdev code `code`, following the rows of the keyboard as
      the Linux code space lays them out: the number row, the QWERTY row, the
      home row, the bottom row with the modifiers and the space bar, the
      function keys and the arrow keys. */
  function FromEvdevCode(code: int): Option<KeyCode>
  {
    if code < 16 then
      if 2 <= code <= 10 then DigitKey(code - 1)
      else
        match code
        case 1 => Some(KeyEsc)
        case 11 => Some(Key0)
        case 12 => Some(KeyMinus)
        case 13 => Some(KeyEqual)
        case 14 => Some(KeyBackspace)
        case 15 => Some(KeyTab)
        case _ => None
    else if code < 30 then
      match code
      case 16 => Some(KeyQ)
      case 17 => Some(KeyW)
      case 18 => Some(KeyE)
      case 19 => Some(KeyR)
      case 20 => Some(KeyT)
      case 21 => Some(KeyY)
      case 22 => Some(KeyU)
      case 23 => Some(KeyI)
      case 24 => Some(KeyO)
      case 25 => Some(KeyP)
      case 26 => Some(KeyLeftBrace)
      case 27 => Some(KeyRightBrace)
      case 28 => Some(KeyEnter)
      case 29 => Some(KeyLeftCtrl)
      case _ => None
    else if code < 44 then
      match code
      case 30 => Some(KeyA)
      case 31 => Some(KeyS)
      case 32 => Some(KeyD)
      case 33 => Some(KeyF)
      case 34 => Some(KeyG)
      case 35 => Some(KeyH)
      case 36 => Some(KeyJ)
      case 37 => Some(KeyK)
      case 38 => Some(KeyL)
      case 39 => Some(KeySemicolon)
      case 40 => Some(KeyApostrophe)
      case 41 => Some(KeyGrave)
      case 42 => Some(KeyLeftShift)
      case 43 => Some(KeyBackslash)
      case _ => None
    else if code < 59 then
      match code
      case 44 => Some(KeyZ)
      case 45 => Some(KeyX)
      case 46 => Some(KeyC)
      case 47 => Some(KeyV)
      case 48 => Some(KeyB)
      case 49 => Some(KeyN)
      case 50 => Some(KeyM)
      case 51 => Some(KeyComma)
      case 52 => Some(KeyDot)
      case 53 => Some(KeySlash)
      case 54 => Some(KeyRightShift)
      case 55 => Some(KeyKpAsterisk)
      case 56 => Some(KeyLeftAlt)
      case 57 => Some(KeySpace)
      case 58 => Some(KeyCapslock)
      case _ => None
    else if code <= 68 then FunctionKey(code - 58)
    else if code <= 88 then
      if code >= 87 then FunctionKey(code - 76) else None
    else
      match code
      case 103 => Some(KeyUp)
      case 105 => Some(KeyLeft)
      case 106 => Some(KeyRight)
      case 108 => Some(KeyDown)
      case _ => None
  }

  /** Distinct keys never share an evdev code. */
  lemma EvdevCodeInjective(a: KeyCode, b: KeyCode)
    ensures ToEvdevCode(a) == ToEvdevCode(b) ==> a == b
  {
  }

  // ---------------------------------------------------------------------
  // Events and the pressed-key table, as values

  /** An input event as `destructure` presents it: a key event with its key
      code and value (1 press, 0 release, 2 autorepeat), or an event of any
      other kind, whose content plays no part. */
  datatype Event = KeyEvent(code: u16, value: i32) | OtherEvent

  /** What `fetch_events` returned for one device in one poll: the events
      read, a would-block error (no events pending on a non-blocking device)
      or any other error. */
  datatype FetchResult = Ok(events: seq<Event>) | WouldBlock | OtherError

  /** A write to the table: the key code and the new flag. */
  datatype Write = Write(code: u16, down: bool)

  /** The write an event asks for: a press writes `true`, a release writes
      `false`, and every other event, autorepeat included, writes nothing. */
  function Transition(e: Event): (w: Option<Write>)
    ensures w.Some? <==> e.KeyEvent? && (e.value == 1 || e.value == 0)
    ensures w.Some? ==> w.value.code == e.code && (w.value.down <==> e.value == 1)
  {
    match e
    case KeyEvent(code, 1) => Some(Write(code, true))
    case KeyEvent(code, 0) => Some(Write(code, false))
    case _ => None
  }

  /** The table as the thread leaves it: the flags, and whether the thread
      has panicked. Indexing the fixed-size array with a code of 0x300 or more
      panics; the thread then dies and the flags keep the writes made so far. */
  datatype Table = Table(keys: seq<bool>, panicked: bool)

  /** One event applied to the table. Once the thread has panicked nothing
      changes any more. */
  function Step(t: Table, e: Event): (r: Table)
    ensures |r.keys| == |t.keys|
    ensures t.panicked ==> r == t
  {
    if t.panicked then t
    else
      match Transition(e)
      case None => t
      case Some(w) =>
        if w.code < |t.keys| then t.(keys := t.keys[w.code := w.down])
        else t.(panicked := true)
  }

  /** The events applied in order, first to last. */
  function ApplyEvents(t: Table, es: seq<Event>): (r: Table)
    ensures |r.keys| == |t.keys|
    ensures t.panicked ==> r == t
  {
    if es == [] then t
    else Step(ApplyEvents(t, es[..|es| - 1]), es[|es| - 1])
  }

  /** The events a device contributes to a poll: what was read, or nothing
      when the fetch failed. */
  function Fetched(d: FetchResult): seq<Event>
  {
    if d.Ok? then d.events else []
  }

  /** All events of one poll, in device order and, per device, in event
      order. */
  function CycleEvents(devices: seq<FetchResult>): seq<Event>
  {
    if devices == [] then []
    else CycleEvents(devices[..|devices| - 1]) + Fetched(devices[|devices| - 1])
  }

  /** A poll in which every fetch failed yields no events. */
  lemma {:induction false} AllFailedNoEvents(devices: seq<FetchResult>)
    requires forall i :: 0 <= i < |devices| ==> !devices[i].Ok?
    ensures CycleEvents(devices) == []
    decreases |devices|
  {
    if devices != [] {
      var init := devices[..|devices| - 1];
      assert forall i :: 0 <= i < |init| ==> init[i] == devices[i];
      AllFailedNoEvents(init);
    }
  }

  /** Event `e` writes code `c`. */
  predicate WritesTo(e: Event, c: int)
  {
    Transition(e).Some? && Transition(e).value.code == c
  }

  /** The flag the last press or release of code `c` in `es` writes, if any;
      an independent description of the table that ignores the order of all
      other events. */
  function LastWrite(es: seq<Event>, c: int): (r: Option<bool>)
    ensures r.Some? <==> exists i :: 0 <= i < |es| && WritesTo(es[i], c)
  {
    if es == [] then None
    else if WritesTo(es[|es| - 1], c) then Some(Transition(es[|es| - 1]).value.down)
    else LastWrite(es[..|es| - 1], c)
  }

  /** The value `LastWrite` gives is written by an event of `es` that no
      later event overwrites. */
  lemma {:induction false} LastWriteIsLast(es: seq<Event>, c: int)
    requires LastWrite(es, c).Some?
    ensures exists i :: 0 <= i < |es| && WritesTo(es[i], c)
                        && LastWrite(es, c).value == Transition(es[i]).value.down
                        && forall j :: i < j < |es| ==> !WritesTo(es[j], c)
    decreases |es|
  {
    var n := |es| - 1;
    if WritesTo(es[n], c) {
      assert LastWrite(es, c).value == Transition(es[n]).value.down;
    } else {
      var es' := es[..n];
      LastWriteIsLast(es', c);
      var i :| 0 <= i < |es'| && WritesTo(es'[i], c)
               && LastWrite(es', c).value == Transition(es'[i]).value.down
               && forall j :: i < j < |es'| ==> !WritesTo(es'[j], c);
      assert es[i] == es'[i];
      assert forall j :: i < j < |es| ==> !WritesTo(es[j], c) by {
        forall j | i < j < |es|
          ensures !WritesTo(es[j], c)
        {
          if j < n {
            assert es[j] == es'[j];
          }
        }
      }
    }
  }

  /** Every press and release in `es` names a code below `n`. */
  predicate InBounds(es: seq<Event>, n: int)
  {
    forall i :: 0 <= i < |es| && Transition(es[i]).Some? ==> Transition(es[i]).value.code < n
  }

  // ---------------------------------------------------------------------
  // Properties of the accumulator

  /** Applying two runs of events one after the other is applying their
      concatenation. */
  lemma {:induction false} ApplyEventsAppend(t: Table, a: seq<Event>, b: seq<Event>)
    ensures ApplyEvents(t, a + b) == ApplyEvents(ApplyEvents(t, a), b)
    decreases |b|
  {
    if b == [] {
      assert a + b == a;
    } else {
      var b' := b[..|b| - 1];
      assert (a + b)[..|a + b| - 1] == a + b';
      assert (a + b)[|a + b| - 1] == b[|b| - 1];
      ApplyEventsAppend(t, a, b');
    }
  }

  /** The events of a concatenation of device lists are the concatenation of
      their events. */
  lemma {:induction false} CycleEventsAppend(x: seq<FetchResult>, y: seq<FetchResult>)
    ensures CycleEvents(x + y) == CycleEvents(x) + CycleEvents(y)
    decreases |y|
  {
    if y == [] {
      assert x + y == x;
    } else {
      var y' := y[..|y| - 1];
      assert (x + y)[..|x + y| - 1] == x + y';
      assert (x + y)[|x + y| - 1] == y[|y| - 1];
      CycleEventsAppend(x, y');
    }
  }

  /** A device whose fetch failed, would-block or otherwise, contributes
      nothing, and the devices after it are still read. */
  lemma FailedFetchIgnored(before: seq<FetchResult>, bad: FetchResult, after: seq<FetchResult>)
    requires !bad.Ok?
    ensures CycleEvents(before + [bad] + after) == CycleEvents(before + after)
  {
    CycleEventsAppend(before + [bad], after);
    CycleEventsAppend(before, after);
    assert (before + [bad])[..|before + [bad]| - 1] == before;
  }

  /** An event that is neither a press nor a release (autorepeat, or an event
      of another kind) leaves the table as it was. */
  lemma IgnoredEvent(t: Table, es: seq<Event>, e: Event)
    requires Transition(e).None?
    ensures ApplyEvents(t, es + [e]) == ApplyEvents(t, es)
  {
    assert (es + [e])[..|es + [e]| - 1] == es;
  }

  /** The thread panics exactly when some press or release names a code
      outside the table. */
  lemma {:induction false} PanicsIffOutOfBounds(t: Table, es: seq<Event>)
    requires !t.panicked
    ensures ApplyEvents(t, es).panicked <==> !InBounds(es, |t.keys|)
    decreases |es|
  {
    if es != [] {
      var es' := es[..|es| - 1];
      PanicsIffOutOfBounds(t, es');
      if InBounds(es', |t.keys|) {
        assert InBounds(es, |t.keys|) <==> !WritesOutside(es[|es| - 1], |t.keys|);
      } else {
        var i :| 0 <= i < |es'| && Transition(es'[i]).Some? && Transition(es'[i]).value.code >= |t.keys|;
        assert es[i] == es'[i];
      }
    }
  }

  /** Event `e` is a press or release of a code of `n` or more. */
  predicate WritesOutside(e: Event, n: int)
  {
    Transition(e).Some? && Transition(e).value.code >= n
  }

  /** When every code is in range, the thread does not panic and each flag is
      the one written by the last press or release of its code, or the old
      flag when there is none: press then release gives `false`, press twice
      gives `true`. */
  lemma {:induction false} LastWriteWins(t: Table, es: seq<Event>)
    requires !t.panicked
    requires InBounds(es, |t.keys|)
    ensures !ApplyEvents(t, es).panicked
    ensures forall c :: 0 <= c < |t.keys| ==> ApplyEvents(t, es).keys[c] == LastWrite(es, c).GetOr(t.keys[c])
    decreases |es|
  {
    if es != [] {
      var es' := es[..|es| - 1];
      assert InBounds(es', |t.keys|) by {
        forall i | 0 <= i < |es'| && Transition(es'[i]).Some?
          ensures Transition(es'[i]).value.code < |t.keys|
        {
          assert es'[i] == es[i];
        }
      }
      LastWriteWins(t, es');
    }
  }

  /** A code that no event in `es` writes keeps its flag, whether or not the
      thread panics along the way. */
  lemma {:induction false} UnwrittenUnchanged(t: Table, es: seq<Event>, c: int)
    requires 0 <= c < |t.keys|
    requires forall i :: 0 <= i < |es| ==> !WritesTo(es[i], c)
    ensures ApplyEvents(t, es).keys[c] == t.keys[c]
    decreases |es|
  {
    if es != [] {
      var es' := es[..|es| - 1];
      assert forall i :: 0 <= i < |es'| ==> es'[i] == es[i];
      UnwrittenUnchanged(t, es', c);
      assert !WritesTo(es[|es| - 1], c);
    }
  }

  /** Releasing a key right after pressing it leaves it released. */
  lemma PressThenRelease(t: Table, c: u16)
    requires !t.panicked && c < |t.keys|
    ensures ApplyEvents(t, [KeyEvent(c, 1), KeyEvent(c, 0)]) == t.(keys := t.keys[c := false])
  {
    TwoEvents(t, KeyEvent(c, 1), KeyEvent(c, 0));
    assert Transition(KeyEvent(c, 1)) == Some(Write(c, true));
    assert Transition(KeyEvent(c, 0)) == Some(Write(c, false));
    assert t.keys[c := true][c := false] == t.keys[c := false];
  }

  /** Pressing a key twice leaves it pressed: events set the flag, they do not
      toggle it. */
  lemma PressTwice(t: Table, c: u16)
    requires !t.panicked && c < |t.keys|
    ensures ApplyEvents(t, [KeyEvent(c, 1), KeyEvent(c, 1)]) == t.(keys := t.keys[c := true])
  {
    TwoEvents(t, KeyEvent(c, 1), KeyEvent(c, 1));
    assert Transition(KeyEvent(c, 1)) == Some(Write(c, true));
    assert t.keys[c := true][c := true] == t.keys[c := true];
  }

  /** Two events are two steps. */
  lemma TwoEvents(t: Table, first: Event, second: Event)
    ensures ApplyEvents(t, [first, second]) == Step(Step(t, first), second)
  {
    assert [first, second][..1] == [first];
    assert [first][..0] == [];
    assert ApplyEvents(t, [first]) == Step(t, first);
  }

  /** Pressing or releasing one key leaves what is reported for every other
      key as it was, because no two keys share an evdev code. */
  lemma OtherKeyUnaffected(t: Table, pressed: KeyCode, other: KeyCode, value: i32)
    requires |t.keys| == KEY_COUNT
    requires pressed != other
    ensures Query(Step(t, KeyEvent(ToEvdevCode(pressed), value)).keys, other) == Query(t.keys, other)
  {
    var p, o := ToEvdevCode(pressed), ToEvdevCode(other);
    assert p != o by {
      EvdevCodeInjective(pressed, other);
    }
    StepOtherCode(t, KeyEvent(p, value), o);
  }

  /** An event leaves the flags of all codes it does not write as they were. */
  lemma StepOtherCode(t: Table, e: Event, c: int)
    requires 0 <= c < |t.keys|
    requires !WritesTo(e, c)
    ensures Step(t, e).keys[c] == t.keys[c]
  {
  }

  // ---------------------------------------------------------------------
  // Successive polls of the background thread

  /** Each poll of `cycles` applied in turn, as the thread's loop does. */
  function RunCycles(t: Table, cycles: seq<seq<FetchResult>>): (r: Table)
    ensures |r.keys| == |t.keys|
  {
    if cycles == [] then t
    else ApplyEvents(RunCycles(t, cycles[..|cycles| - 1]), CycleEvents(cycles[|cycles| - 1]))
  }

  /** The fetch results of several polls, one after the other. */
  function Concat(cycles: seq<seq<FetchResult>>): seq<FetchResult>
  {
    if cycles == [] then []
    else Concat(cycles[..|cycles| - 1]) + cycles[|cycles| - 1]
  }

  /** Polls do not interact: several polls have the effect of a single one
      over all their fetch results in order, and after a panic the later
      polls change nothing. */
  lemma {:induction false} RunCyclesIsOneCycle(t: Table, cycles: seq<seq<FetchResult>>)
    ensures RunCycles(t, cycles) == ApplyEvents(t, CycleEvents(Concat(cycles)))
    decreases |cycles|
  {
    if cycles != [] {
      var init := cycles[..|cycles| - 1];
      RunCyclesIsOneCycle(t, init);
      CycleEventsAppend(Concat(init), cycles[|cycles| - 1]);
      ApplyEventsAppend(t, CycleEvents(Concat(init)), CycleEvents(cycles[|cycles| - 1]));
    }
  }

  // ---------------------------------------------------------------------
  // The table as `is_pressed` reads it

  /** The table right after `new`: every flag is false. */
  function Initial(): (keys: seq<bool>)
    ensures |keys| == KEY_COUNT
  {
    seq(KEY_COUNT, _ => false)
  }

  /** What `is_pressed` reports for `key` from a table of `KEY_COUNT` flags:
      the flag at the key's evdev code, which is always in range. */
  function Query(keys: seq<bool>, key: KeyCode): bool
    requires |keys| == KEY_COUNT
  {
    keys[ToEvdevCode(key)]
  }

  /** Immediately after `new` no key is reported as pressed. */
  lemma NothingPressedInitially(key: KeyCode)
    ensures !Query(Initial(), key)
  {
  }

  /** After a poll in which no code is out of range, a key is reported as
      pressed exactly when the last press or release of its code in the poll
      was a press, or, when there was none, when it was pressed before. */
  lemma QueryAfterCycle(keys: seq<bool>, devices: seq<FetchResult>, key: KeyCode)
    requires |keys| == KEY_COUNT
    requires InBounds(CycleEvents(devices), KEY_COUNT)
    ensures !ApplyEvents(Table(keys, false), CycleEvents(devices)).panicked
    ensures Query(ApplyEvents(Table(keys, false), CycleEvents(devices)).keys, key)
         == LastWrite(CycleEvents(devices), ToEvdevCode(key)).GetOr(Query(keys, key))
  {
    LastWriteWins(Table(keys, false), CycleEvents(devices));
  }

  /** The events of the first `i + 1` devices: those of the first `i`, then
      those of device `i`. */
  lemma CycleEventsPrefix(devices: seq<FetchResult>, i: int)
    requires 0 <= i < |devices|
    ensures CycleEvents(devices[..i + 1]) == CycleEvents(devices[..i]) + Fetched(devices[i])
    ensures !devices[i].Ok? ==> CycleEvents(devices[..i + 1]) == CycleEvents(devices[..i])
  {
    assert devices[..i + 1][..i] == devices[..i];
    assert CycleEvents(devices[..i]) + [] == CycleEvents(devices[..i]);
  }

  /** A press or release of a code inside the table writes that one entry. */
  lemma StepWrites(keys: seq<bool>, code: u16, value: i32)
    requires code < |keys| && (value == 1 || value == 0)
    ensures Step(Table(keys, false), KeyEvent(code, value)) == Table(keys[code := value == 1], false)
  {
  }

  /** An event that is neither a press nor a release changes nothing. */
  lemma StepIgnores(keys: seq<bool>, e: Event)
    requires !(e.KeyEvent? && (e.value == 1 || e.value == 0))
    ensures Step(Table(keys, false), e) == Table(keys, false)
  {
  }

  /** Applying the next event is one more step. */
  lemma NextEvent(start: Table, es: seq<Event>, j: int)
    requires 0 <= j < |es|
    ensures ApplyEvents(start, es[..j + 1]) == Step(ApplyEvents(start, es[..j]), es[j])
  {
    assert es[..j + 1][..j] == es[..j];
  }

  /** After a panic, whatever follows changes nothing. */
  lemma PanicIsFinal(start: Table, a: seq<Event>, b: seq<Event>)
    requires ApplyEvents(start, a).panicked
    ensures ApplyEvents(start, a + b) == ApplyEvents(start, a)
  {
    ApplyEventsAppend(start, a, b);
  }

  /** A panic while reading device `i` ends the poll: the devices after it
      change nothing. */
  lemma PanicEndsCycle(start: Table, devices: seq<FetchResult>, i: int)
    requires 0 <= i < |devices|
    requires ApplyEvents(start, CycleEvents(devices[..i + 1])).panicked
    ensures ApplyEvents(start, CycleEvents(devices)) == ApplyEvents(start, CycleEvents(devices[..i + 1]))
  {
    assert devices == devices[..i + 1] + devices[i + 1..];
    CycleEventsAppend(devices[..i + 1], devices[i + 1..]);
    PanicIsFinal(start, CycleEvents(devices[..i + 1]), CycleEvents(devices[i + 1..]));
  }

  /** Once a poll has panicked, the later polls change nothing. */
  lemma {:induction false} PanickedThreadStops(start: Table, cycles: seq<seq<FetchResult>>, n: int)
    requires 0 <= n <= |cycles|
    requires RunCycles(start, cycles[..n]).panicked
    ensures RunCycles(start, cycles) == RunCycles(start, cycles[..n])
    decreases |cycles|
  {
    if |cycles| == n {
      assert cycles[..n] == cycles;
    } else {
      var init := cycles[..|cycles| - 1];
      assert init[..n] == cycles[..n];
      PanickedThreadStops(start, init, n);
    }
  }

  // ---------------------------------------------------------------------
  // The handler

  /** The Linux handler: the table of pressed flags shared with the
      background thread (`SharedState::pressed_keys`), one per evdev code. */
  class InputHandler {
    const pressedKeys: array<bool>

    /** The table has one entry per code below `KEY_COUNT`. */
    ghost predicate Valid()
    {
      pressedKeys.Length == KEY_COUNT
    }

    /** `new`: a table with every flag false. */
    constructor ()
      ensures Valid() && fresh(pressedKeys)
      ensures pressedKeys[..] == Initial()
    {
      var table := new bool[KEY_COUNT](_ => false);
      assert table[..] == Initial();
      pressedKeys := table;
    }

    /** One pass of the thread's loop while it holds the lock: the devices are
        read in order and the events of each are applied to the table. A
        code outside the table panics, which ends the pass and the thread;
        `completed` is false then. */
    method PollCycle(devices: seq<FetchResult>) returns (completed: bool)
      requires Valid()
      modifies pressedKeys
      ensures Table(pressedKeys[..], !completed) == ApplyEvents(Table(old(pressedKeys[..]), false), CycleEvents(devices))
    {
      ghost var start := Table(pressedKeys[..], false);
      var i := 0;
      while i < |devices|
        invariant 0 <= i <= |devices|
        invariant Table(pressedKeys[..], false) == ApplyEvents(start, CycleEvents(devices[..i]))
      {
        CycleEventsPrefix(devices, i);
        match devices[i] {
        case Ok(events) =>
          ApplyEventsAppend(start, CycleEvents(devices[..i]), events);
          var ok := ApplyDeviceEvents(events);
          if !ok {
            PanicEndsCycle(start, devices, i);
            return false;
          }
        case WouldBlock =>
        case OtherError =>
          // Reported on standard error; the table is left alone.
        }
        i := i + 1;
      }
      assert devices[..i] == devices;
      return true;
    }

    /** The events read from one device, applied in order: a press writes
        `true` at its code, a release writes `false`, anything else is
        skipped. `ok` is false when a code outside the table panics. */
    method ApplyDeviceEvents(events: seq<Event>) returns (ok: bool)
      requires Valid()
      modifies pressedKeys
      ensures Table(pressedKeys[..], !ok) == ApplyEvents(Table(old(pressedKeys[..]), false), events)
    {
      ghost var start := Table(pressedKeys[..], false);
      ghost var cur := start;
      var j := 0;
      while j < |events|
        invariant 0 <= j <= |events|
        invariant cur == ApplyEvents(start, events[..j])
        invariant pressedKeys[..] == cur.keys && !cur.panicked
      {
        NextEvent(start, events, j);
        match events[j] {
        case KeyEvent(code, 1) =>
          if code >= pressedKeys.Length {
            assert events == events[..j + 1] + events[j + 1..];
            PanicIsFinal(start, events[..j + 1], events[j + 1..]);
            return false;
          }
          pressedKeys[code] := true;
          StepWrites(cur.keys, code, 1);
        case KeyEvent(code, 0) =>
          if code >= pressedKeys.Length {
            assert events == events[..j + 1] + events[j + 1..];
            PanicIsFinal(start, events[..j + 1], events[j + 1..]);
            return false;
          }
          pressedKeys[code] := false;
          StepWrites(cur.keys, code, 0);
        case _ =>
          StepIgnores(cur.keys, events[j]);
        }
        cur := Step(cur, events[j]);
        j := j + 1;
      }
      assert events[..j] == events;
      return true;
    }

    /** The background thread's loop (`input_thread`) over a finite schedule
        of polls: each poll in turn, until one panics, which ends the thread.
        `alive` is false once it has. */
    method InputThread(cycles: seq<seq<FetchResult>>) returns (alive: bool)
      requires Valid()
      modifies pressedKeys
      ensures Table(pressedKeys[..], !alive) == RunCycles(Table(old(pressedKeys[..]), false), cycles)
    {
      ghost var start := Table(pressedKeys[..], false);
      var n := 0;
      while n < |cycles|
        invariant 0 <= n <= |cycles|
        invariant Table(pressedKeys[..], false) == RunCycles(start, cycles[..n])
      {
        assert cycles[..n + 1][..n] == cycles[..n];
        alive := PollCycle(cycles[n]);
        if !alive {
          PanickedThreadStops(start, cycles, n + 1);
          return;
        }
        n := n + 1;
      }
      assert cycles[..n] == cycles;
      return true;
    }

    /** `is_pressed`: reads the flag at the key's evdev code and changes
        nothing. */
    method IsPressed(key: KeyCode) returns (pressed: bool)
      requires Valid()
      ensures pressed == Query(pressedKeys[..], key)
    {
      pressed := pressedKeys[ToEvdevCode(key)];
    }
  }
}
