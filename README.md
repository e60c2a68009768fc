# input-query, modelled in Dafny

input-query is a small Rust crate. It answers one question: is a given keyboard key held down right now? It answers without owning a window or receiving focus events. Callers name keys with the closed enumeration `KeyCode`. At build time one of three backends is chosen for the target operating system. Each backend takes the question to its platform.

- **Linux (evdev).** Each key becomes an evdev key code. A background thread polls every input device. It folds each press (value 1) and release (value 0) into a table of `KEY_COUNT` = 0x300 flags, one per evdev code. `is_pressed` reads the flag at the key's code.
- **Windows (Win32).** Each key becomes a virtual-key code. `is_pressed` asks `GetAsyncKeyState` for that code and tests bit 15 (mask 0x8000) of the 16-bit answer.
- **macOS.** This backend is referenced, but its source is not part of this model.

The model has four modules:

- `Prelude` (`prelude.dfy`): `Option` and the Rust integer widths the crate uses (`u16`, `i16`, `i32`).
- `Keys` (`keys.dfy`): the enumeration, the groups of letter, digit and function keys, and the selection of one backend per target.
- `Windows` (`windows.dfy`): the virtual-key table, with a left inverse that recovers the key from its code. Also the sign-bit reading of the state word, and the stateless handler.
- `Linux` (`linux.dfy`):
  - the evdev table, with the header constants and a left inverse;
  - the accumulator, as functions on values: `Transition`, `Step`, `ApplyEvents`, `CycleEvents`, `RunCycles`;
  - an independent reference description of the final table, `LastWrite`;
  - the handler, as a class over an `array<bool>` of 0x300 entries. Its methods `PollCycle`, `ApplyDeviceEvents` and `InputThread` loop over devices and events as `input_thread` does, and they are proved against those functions.

Several properties hold by the declarations themselves, with no lemma:

- `KeyCode` is a Dafny `datatype` with the 74 payload-free variants in source order. Its equality is variant identity, which is what the Rust `derive(Clone, Copy, PartialEq, Eq)` gives.
- Both tables are `match` expressions with one arm per variant and no fallback. Dafny accepts them only because the match is exhaustive, so both tables are total.

Points about the code that the model keeps:

- The library's documentation example calls `update_inputs` (src/lib.rs:22), but neither backend shown defines it. The Linux backend refreshes its table only from its own background thread, which the documentation describes as polling every 5 ms (src/input_handler/linux.rs:23, 32-33).
- In each cycle, `fetch_events` is called once per device (src/input_handler/linux.rs:59). In the model, one `FetchResult` per device per cycle stands for that call.
- The table is a fixed-size array indexed directly by the event's code (src/input_handler/linux.rs:64, 67). A press or release with a code of 0x300 or more would therefore panic the thread, and the writes made before it stay. The model keeps this path (`Table.panicked`, `completed`/`alive` false). `PanicsIffOutOfBounds` and `LastWriteWins` show that it is not taken while every code is in range. Linux key codes end at `KEY_MAX` = 0x2FF.

## Model

| member | source | states |
|---|---|---|
| Keys.LetterKey | src/input_handler.rs:36-70 | defined exactly on the 26 uppercase ASCII codes 0x41..0x5A, each naming its letter key |
| Keys.DigitKey | src/input_handler.rs:22-31 | defined exactly on the digits 0..9, naming the main-block digit keys |
| Keys.FunctionKey | src/input_handler.rs:79-90 | defined exactly on 1..12, naming F1..F12 |
| Keys.SelectedBackends | src/input_handler.rs:1-17 | every backend compiled for a target carries that target's `cfg` |
| Keys.ExactlyOneBackend | src/input_handler.rs:1-17 | the three `cfg` arms are mutually exclusive: exactly one backend for linux, windows and macos, none for any other target, and every backend whose `cfg` names the target is in the selection |
| Windows.ToVirtualKey | src/input_handler/windows.rs:34-111 | total over all variants; every code lies in 0x08..0xDE; `FromVirtualKey` recovers the key from its code |
| Windows.VirtualKeyInjective | src/input_handler/windows.rs:36-109 | distinct keys have distinct virtual-key codes |
| Windows.LetterRange | src/input_handler/windows.rs:51-85 | a key whose code lies in 0x41..0x5A is the letter key of that ASCII code |
| Windows.LetterCodes | src/input_handler/windows.rs:51-85 | every letter key has its letter's uppercase ASCII code |
| Windows.DigitRange | src/input_handler/windows.rs:37-46 | a key whose code lies in 0x30..0x39 is the digit key of that ASCII code |
| Windows.DigitCodes | src/input_handler/windows.rs:37-46 | every digit key has its digit's ASCII code 0x30 + d |
| Windows.FunctionRange | src/input_handler/windows.rs:94-105 | a key whose code lies in 0x70..0x7B is the function key of that offset |
| Windows.FunctionCodes | src/input_handler/windows.rs:94-105 | F1..F12 take the consecutive codes 0x70..0x7B |
| Windows.AsUnsigned | src/input_handler/windows.rs:30 | `as u16` keeps the bit pattern: the result agrees with the signed value modulo 2^16 |
| Windows.HighBitSet | src/input_handler/windows.rs:30 | the flag test on the unsigned word holds exactly in the upper half of its range, 0x8000..0xFFFF |
| Windows.HighBitMatchesMask | src/input_handler/windows.rs:30 | the arithmetic test agrees with the bitwise `w & 0x8000 != 0` on every 16-bit word |
| Windows.HighBitIsSign | src/input_handler/windows.rs:30 | bit 15 of the reinterpreted word is set exactly when the signed state is negative |
| Windows.LowBitsIgnored | src/input_handler/windows.rs:30 | replacing the fifteen low bits of the word by any others does not change the result |
| Windows.InputHandler.IsPressed | src/input_handler/windows.rs:27-32 | a key is pressed exactly when the state reported for its virtual-key code is negative, that is, has its high bit set |
| Windows.SingleKeyDown | src/input_handler/windows.rs:27-32 | when the OS reports a single code as down, at most one key is pressed, and it is the key with that code |
| Windows.DependsOnlyOnOwnCode | src/input_handler/windows.rs:27-32 | the handler holds no state: the answer depends only on the key and the OS word for the key's code |
| Windows.OnlyHandler | src/input_handler/windows.rs:14-16 | `new` returns a unit value: every handler equals `New()` |
| Linux.ToEvdevCode | src/input_handler/linux.rs:100-178 | total over all variants; every code lies in 1..0x2FF, below `KEY_COUNT`, so `is_pressed` never indexes out of bounds; `FromEvdevCode` recovers the key from its code |
| Linux.EvdevCodeInjective | src/input_handler/linux.rs:102-177 | distinct keys have distinct evdev codes |
| Linux.Transition | src/input_handler/linux.rs:62-70 | an event asks for a write exactly when it is a key event with value 1 or 0; the write is at the event's code, and it writes `true` exactly for value 1 |
| Linux.Step | src/input_handler/linux.rs:62-70 | one event keeps the table's size, and changes nothing once the thread has panicked |
| Linux.StepWrites | src/input_handler/linux.rs:63-68 | a press or release of an in-range code writes exactly that entry: `true` for a press, `false` for a release |
| Linux.StepIgnores | src/input_handler/linux.rs:69 | an event that is neither a press nor a release leaves the table unchanged |
| Linux.StepOtherCode | src/input_handler/linux.rs:64-67 | an event leaves every entry it does not write unchanged |
| Linux.ApplyEvents | src/input_handler/linux.rs:61-71 | the events applied in order keep the table's size; after a panic nothing changes |
| Linux.ApplyEventsAppend | src/input_handler/linux.rs:61-71 | applying two runs of events one after the other is applying their concatenation |
| Linux.LastWrite | src/input_handler/linux.rs:58-71 | the reference description has a value for code c exactly when some event in the sequence writes c |
| Linux.LastWriteIsLast | src/input_handler/linux.rs:58-71 | the value `LastWrite` gives is written by some event of the sequence that no later event overwrites |
| Linux.CycleEventsAppend | src/input_handler/linux.rs:58-79 | the events of concatenated device lists are the concatenation of their events, in device order |
| Linux.AllFailedNoEvents | src/input_handler/linux.rs:58-78 | a poll in which every fetch failed yields no events, where `Fetched` gives a device's contribution: its events on success, none on an error |
| Linux.FailedFetchIgnored | src/input_handler/linux.rs:73-78 | a device whose fetch failed, would-block or otherwise, contributes nothing, and the devices after it are still read |
| Linux.IgnoredEvent | src/input_handler/linux.rs:69 | appending an event that is neither a press nor a release (autorepeat value 2, other event kinds) leaves the result unchanged |
| Linux.PanicsIffOutOfBounds | src/input_handler/linux.rs:64-67 | the thread panics on a sequence exactly when some press or release in it names a code outside the table |
| Linux.LastWriteWins | src/input_handler/linux.rs:58-71 | with every code in range there is no panic, and each entry equals the value of the last press or release of its code, or its old value if there is none |
| Linux.UnwrittenUnchanged | src/input_handler/linux.rs:64-67 | an entry that no event writes keeps its value, even if the thread panics |
| Linux.PressThenRelease | src/input_handler/linux.rs:63-68 | a press followed by a release of the same code leaves that entry `false` and every other entry as it was |
| Linux.PressTwice | src/input_handler/linux.rs:63-65 | two presses leave the entry `true`: events set the flag and do not toggle it |
| Linux.OtherKeyUnaffected | src/input_handler/linux.rs:94-98 | a press or release of one key never changes what is reported for any other key |
| Linux.PanicIsFinal | src/input_handler/linux.rs:64-67 | once the thread has panicked, the events after it change nothing |
| Linux.PanicEndsCycle | src/input_handler/linux.rs:58-79 | a panic while reading one device leaves the rest of the poll without effect |
| Linux.RunCycles | src/input_handler/linux.rs:56-83 | successive polls keep the table's size |
| Linux.RunCyclesIsOneCycle | src/input_handler/linux.rs:56-83 | several polls have the effect of a single poll over all their fetch results in order |
| Linux.PanickedThreadStops | src/input_handler/linux.rs:56-83 | after a poll that panicked, the later polls change nothing |
| Linux.Initial | src/input_handler/linux.rs:40-42 | the initial table has `KEY_COUNT` entries |
| Linux.NothingPressedInitially | src/input_handler/linux.rs:40-42 | right after `new`, no key is reported as pressed |
| Linux.QueryAfterCycle | src/input_handler/linux.rs:94-98 | after a poll with every code in range, a key reads as pressed exactly when the last press or release of its code was a press, or as before when there was none |
| Linux.InputHandler.constructor | src/input_handler/linux.rs:34-53 | `new` allocates a fresh table of `KEY_COUNT` entries, all `false` |
| Linux.InputHandler.PollCycle | src/input_handler/linux.rs:57-80 | one poll updates the array in place to exactly the table `ApplyEvents` gives for the poll's events; it reports `false` exactly when an out-of-range code panicked |
| Linux.InputHandler.ApplyDeviceEvents | src/input_handler/linux.rs:61-71 | the events of one device update the array in place to exactly the table `ApplyEvents` gives; `false` exactly on a panic |
| Linux.InputHandler.InputThread | src/input_handler/linux.rs:55-83 | a finite run of the thread's loop leaves exactly the table `RunCycles` gives, and stops at the first panic |
| Linux.InputHandler.IsPressed | src/input_handler/linux.rs:94-98 | returns `Query(pressedKeys[..], key)` and changes nothing, where `Query` reads the flag at the key's evdev code, always inside the table by `ToEvdevCode`'s range |

## Left out

- Thread spawning, the `Arc<Mutex<_>>` lock and the 5 ms sleep are concurrency and timing. Each poll is modelled as one sequential call made while the lock is held. `InputThread` runs a finite schedule of polls in place of the endless `loop`.
- `evdev::enumerate`, `set_nonblocking` and its `expect` panic, and `fetch_events` are device I/O. Their results are the input `seq<FetchResult>` to each poll. The model lets each poll take its own device list, while the crate enumerates the devices once in `new` and reads that same set in every pass; every property proved holds for any lists.
- The `eprintln!` report of a device error other than would-block goes to standard error. It is not modelled. Both error kinds leave the table alone.
- The `GetAsyncKeyState` call is a foreign function. Its answer is the parameter `asyncKeyState`. The widening of the code to `i32` at the call is lossless and is not shown.
- HighBitSet: the test `w & 0x8000 != 0` is written arithmetically, as bit 15 of the unsigned word, `(w / 0x8000) % 2 == 1`. `HighBitMatchesMask` shows that the two agree on every 16-bit word.
- Thread termination on drop is promised in the documentation, but the loop has no exit, so it is not modelled.
- The macOS backend is referenced by the `cfg` arms, but its source is not part of this model. It appears in `Keys.SelectedBackends` only.
- `update_inputs` is used in the library's documentation example, but neither backend defines it.
- `src/lib.rs` only re-exports and documents, and `examples/simple.rs` is a demonstration loop. Neither is modelled.
- KeyCode: no lemma counts the variants. That there are 74 payload-free variants holds by the declaration, and that they are distinct holds by the meaning of a Dafny datatype.
- Linux.ToEvdevCode: the converse group facts are not restated for the evdev table. These are that the digits take codes 2..11 and F1..F12 take 59..68, 87 and 88. They hold through the named constants `KEY_1`..`KEY_F12`, which copy the values of `linux/input-event-codes.h`.
