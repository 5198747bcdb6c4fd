# ALPACA LNA bias control, modelled in Dafny

This project models the control software of the ALPACA low-noise-amplifier
bias system. A VME crate holds 18 bias boards. Each board has three kinds of
bus device behind an LTC4302 bus repeater:

- a PCF8575 I/O expander;
- two AD5144 digital potentiometers, with four wipers each;
- eight INA219 current-sense chips.

The expander and the pots are write-only, so each board keeps a shadow of what
it last wrote to them.

The project has six modules:

- `BusLog` models the transport as a log of calls (`Txn`). It defines the
  repeater protocol: every device call happens between a connect command and
  a disconnect command sent to the board's repeater. `LinkRun` is a
  connected/disconnected state machine that checks a log against this
  protocol.
- `Bits` defines Python's `|`, `& ~` and `>>` on non-negative integers, one
  binary digit at a time, and the shift `1 << n` as the power `Pow2(n)`. It
  proves the per-bit facts the pin shadow needs.
- `Wrappers` holds the `Option` type.
- `BiasBoardControl` is the board. It holds the pure arithmetic (the `MSBF`
  byte swap, device addresses, bus-voltage conversion) and the class
  `BiasBoard`. The class has the fields of the Python object: `pinstate`,
  `pot1`, `pot2` (the handles `frptr` and `fina` are left out), and a ghost
  `bus` log. One method models each board operation. `Valid()` says two things: the wiper shadows hold bytes, and
  every call this board has made so far followed the repeater protocol.
- `ALPACABias` covers the crate-level functions. It maps a global channel
  1..144 to a board and a board channel. It builds the `iLNA`/`vLNA` wiper
  hill-climb from two parts:
  - a specification function `Climb` over a sequence of measurements, with
    lemmas about it;
  - a method `Tune` with the same loop as the source, proved to agree with
    `Climb`.
- `TuiConsoleCharsets` covers the serial console header: the four input
  charsets, their membership sets, and the promise that a getter's line only
  holds characters of its charset.

Three details of the code shape the model:

- **Console digits.** The comments of the console header list the digits of
  every numeric charset as `'1-9'`, and no charset names `'0'` or `':'`.
  `IsDigit` follows the header, and the lemma `NoZeroNoColon` records that
  `'0'` and `':'` are rejected. The header alone does not show whether the
  console's implementation accepts `'0'`.
- **Tuning-loop guard.** The guard at `ALPACABias.py:38` and `:72` reads the
  module-level `i`. That variable is left at 18 by the board-construction
  loop and is never incremented, so the guard never fires. The tuning loop
  therefore has no iteration bound:
  - `BoardLoopIndexNeverStops` states that the guard never fires;
  - `OscillationNeverStops` gives measurements that keep the loop running for
    as long as measurements are supplied.
  
  Because of this, the loop is modelled over a finite measurement sequence.
  Running out of measurements is a separate outcome, `OutOfReadings`.
- **Zero set point.** The measurements are numpy floats (the averages of
  `get_current` and `get_bus`), so `abs(val - set_current) / set_current`
  with a set point of 0 gives inf or nan instead of raising, and the
  tolerance test fails. `WithinTolerance` is false for a zero set point, so
  the loop keeps moving the wiper. `ZeroSetPointWalksDown` states where it
  goes: down to 0, one write per measurement, when the measurements are not
  negative.

## Model

| member | source | states |
|---|---|---|
| BusLog.Framed | BiasBoardControl.py:225-239 | a device operation on the bus is the connect byte `0b11100000` to the repeater, the device calls, then the disconnect byte `0b01100000` to the same repeater |
| BusLog.LinkStep | BiasBoardControl.py:225-239 | repeater protocol, one call at a time: a connect is only legal while disconnected, a disconnect only while connected, a device call only while connected |
| BusLog.LinkRun | BiasBoardControl.py:225-239 | over a log that keeps the protocol, the final link state is the start state toggled once per call to the repeater: device calls never change it |
| BusLog.LinkRunAppend | BiasBoardControl.py:225-239 | checking a log split in two is checking the first part, then the second from the state the first leaves |
| BusLog.LinkRunDevices | BiasBoardControl.py:225-239 | device calls made while connected keep the link connected |
| BusLog.FramedKeepsProtocol | BiasBoardControl.py:225-239 | appending the connect, the device calls and the disconnect one after another appends one framed operation, and appended to a log that ends disconnected it keeps the log legal and disconnected |
| Bits.OrBit | BiasBoardControl.py:150 | bit k of `a \| b` is set iff bit k of a or of b is |
| Bits.AndNotBit | BiasBoardControl.py:152 | bit k of `a & ~b` is set iff bit k of a is set and bit k of b is not |
| Bits.Pow2Bit | BiasBoardControl.py:150-152 | `1 << n` has bit n set and no other |
| Bits.LowMaskBit | BiasBoardControl.py:104-114 | `(1 << n) - 1` has exactly bits 0..n-1 set |
| BiasBoardControl.PinsZeroToEightHigh | BiasBoardControl.py:109-113 | the pin state `(1 << 9) - 1` that the startup sequence leaves is 0x1FF, with exactly pins 0..8 high |
| Bits.OrNextBit | BiasBoardControl.py:110-113 | setting bit n of `(1 << n) - 1` gives `(1 << (n + 1)) - 1` |
| Bits.LowBits | BiasBoardControl.py:154 | the bits of `p % (1 << n)` are bits 0..n-1 of p |
| Bits.ShrIsDiv | BiasBoardControl.py:154 | `p >> n` is `p // (1 << n)` |
| Bits.HighBits | BiasBoardControl.py:154 | bit k of `p >> n` is bit k + n of p |
| Bits.SameLowBits | BiasBoardControl.py:154 | numbers with the same bits 0..n-1 are equal modulo `1 << n` |
| BiasBoardControl.MSBF | BiasBoardControl.py:54-62 | the result is in 0..0xFFFF, its high byte is the low byte of the input and its low byte is the input's second byte |
| BiasBoardControl.MsbfInvolution | BiasBoardControl.py:54-62 | swapping twice gives back every 16-bit word |
| BiasBoardControl.NextPinState | BiasBoardControl.py:148-152 | the driven pin takes the new level: set by `\| (1 << pin)`, cleared by `& ~(1 << pin)` |
| BiasBoardControl.NextPinStateBits | BiasBoardControl.py:141-153 | driving pin `pin` (0..16) high sets that bit, low clears it, and every other bit keeps its value |
| BiasBoardControl.ExpanderBytes | BiasBoardControl.py:154 | both transmitted bytes `p & 0xFF` and `(p & 0xFF00) >> 8` are in 0..255 |
| BiasBoardControl.ExpanderBytesCarryPins | BiasBoardControl.py:154 | bit k of the first byte is pin k, bit k of the second is pin k + 8 (k in 0..7) |
| BiasBoardControl.SameBitsSameByte | BiasBoardControl.py:154 | a byte is determined by its eight bits |
| BiasBoardControl.Pin16NeverTransmitted | BiasBoardControl.py:141-154 | pin 16, which the range check allows, changes the shadow but never the two bytes sent |
| BiasBoardControl.RepeaterAddr | BiasBoardControl.py:225-230 | the repeater address `0b1100000 + addr` is in 0x61..0x72 for addr 1..18 |
| BiasBoardControl.InaAddr | BiasBoardControl.py:125-129 | current-sense chip of channel 1..8 is at `0b1001000 + chan - 1`, within the eight addresses from 0x48 |
| BiasBoardControl.PotAddr | BiasBoardControl.py:173-177 | pot 2 is addressed at `DIGITALPOT_2_I2C_ADDR`, any other pot number at `DIGITALPOT_1_I2C_ADDR` |
| BiasBoardControl.DeviceAddressesDistinct | BiasBoardControl.py:33-38 | the eight INA219 addresses are distinct and none is the expander's, a pot's or the board's repeater's; the expander's address is neither pot's; the two pots differ; the repeater's address is no device's |
| BiasBoardControl.BusVoltageMillivolts | BiasBoardControl.py:292-294 | `(val >> 3) * 4` is the largest multiple of 4 not above `val / 2`, and at most 0x7FFC for a 16-bit register |
| BiasBoardControl.BusVoltageIgnoresStatusBits | BiasBoardControl.py:292-294 | the three low register bits (CNVR, OVF, reserved) never change the reading |
| BiasBoardControl.WiperOf | BiasBoardControl.py:196-199 | the value read is the one the wiper holds: writing it back changes neither shadow |
| BiasBoardControl.WriteWiper | BiasBoardControl.py:170-178 | writing a wiper keeps both shadows four entries long |
| BiasBoardControl.WiperReadBack | BiasBoardControl.py:170-199 | after writing value to (pot, wiper), reading (pot, wiper) gives value and every other wiper reads as before |
| BiasBoardControl.WriteWiperTwice | BiasBoardControl.py:170-178 | a second write to the same wiper overrides the first |
| BiasBoardControl.StartupPrefix | BiasBoardControl.py:109-113 | the log up to channel n of the startup sequence holds 6 + 7n calls: two expander frames, then per channel an initialisation frame and an expander frame |
| BiasBoardControl.StartupLog | BiasBoardControl.py:109-114 | the whole startup log holds 86 calls: ten expander and eight wiper frames of three calls, eight initialisation frames of four |
| BiasBoardControl.StartupKeepsProtocol | BiasBoardControl.py:109-114 | the startup log keeps the repeater protocol and leaves the board's bus disconnected |
| BiasBoardControl.PotFrames | ALPACABias.py:47-56 | the log of n wiper writes holds 3n calls |
| BiasBoardControl.BiasBoard.constructor | BiasBoardControl.py:91-114 | addr must be 1..18; afterwards `pinstate == 0x1FF` (exactly pins 0..8 high), all eight wipers are 0, and the log is exactly the startup sequence: clear the expander, raise pin 0, then for each channel 1..8 initialise its INA219 and raise its pin, then zero the eight wipers |
| BiasBoardControl.BiasBoard.GetPot | BiasBoardControl.py:182-199 | pot 1 or 2 and wiper 1..4 are required; the result is the shadowed wiper value, a byte, and nothing changes |
| BiasBoardControl.BiasBoard.Start | BiasBoardControl.py:225-230 | appends the connect byte to the board's repeater |
| BiasBoardControl.BiasBoard.End | BiasBoardControl.py:232-239 | appends the disconnect byte to the board's repeater |
| BiasBoardControl.BiasBoard.SetIoExpander | BiasBoardControl.py:131-155 | pin must be 0..16; the new `pinstate` is 0 with `zero`, else the old one with that pin driven; the pots are unchanged; the log gains one framed 16-bit write of the new state's low and high byte |
| BiasBoardControl.BiasBoard.ZeroIoExpander | BiasBoardControl.py:221-223 | `pinstate` becomes 0 and bytes (0, 0) are sent in one framed write |
| BiasBoardControl.BiasBoard.SetPot | BiasBoardControl.py:157-180 | wiper 1..4, pot 1 or 2 and value 0..255 are required; only that wiper's shadow changes, to value; the log gains one framed write of command `0b00010000 + wiper - 1` and value to that pot |
| BiasBoardControl.BiasBoard.ZeroPots | BiasBoardControl.py:210-219 | all eight wipers become 0, pot 1 wipers 1..4 then pot 2 wipers 1..4, each in its own framed write |
| BiasBoardControl.BiasBoard.InitCurrSense | BiasBoardControl.py:241-261 | one framed operation writes the calibration register, then the configuration register of that channel's INA219 |
| BiasBoardControl.BiasBoard.ReadRegister | BiasBoardControl.py:263-291 | one framed operation (optional calibration write, then a 16-bit register read); the result is the byte-swapped reading |
| BiasBoardControl.BiasBoard.InaCurrentRaw | BiasBoardControl.py:263-269 | re-writes the calibration, reads the current register, returns it byte-swapped |
| BiasBoardControl.BiasBoard.InaPowerRaw | BiasBoardControl.py:271-277 | re-writes the calibration, reads the power register, returns it byte-swapped |
| BiasBoardControl.BiasBoard.InaShuntVoltageRaw | BiasBoardControl.py:279-284 | reads the shunt-voltage register without a calibration write, returns it byte-swapped |
| BiasBoardControl.BiasBoard.InaBusVoltageRaw | BiasBoardControl.py:286-294 | re-writes the calibration, reads the bus-voltage register, returns `(MSBF(raw) >> 3) * 4` mV: a multiple of 4 in 0..0x7FFC |
| ALPACABias.GetBoard | ALPACABias.py:117-131 | channel must be 1..144; the board is `ceil(channel / 8)` in 1..18, the board channel `(channel - 1) % 8 + 1` in 1..8, and `(board - 1) * 8 + boardchan == channel` |
| ALPACABias.GetBoardInverse | ALPACABias.py:129-131 | every (board, board channel) pair is the image of its global channel, so the mapping is onto |
| ALPACABias.GetBoardInjective | ALPACABias.py:129-131 | distinct channels go to distinct (board, board channel) pairs |
| ALPACABias.PotSelect | ALPACABias.py:34-35 | board channels 1..4 select wipers 1..4 of pot 1 and channels 5..8 wipers 1..4 of pot 2, so `set_pot`/`get_pot`'s range checks always hold (`vLNA` repeats this at lines 68-69) |
| ALPACABias.RelErr | ALPACABias.py:44 | the relative error is zero exactly when the measurement equals the set point, is non-negative for a positive set point, and times the set point gives the absolute error |
| ALPACABias.WithinTolerance | ALPACABias.py:44-45 | the set point is non-zero and the relative error is below the tolerance; a zero set point (numpy's inf or nan quotient) is never within it (the same test at lines 78-79) |
| ALPACABias.Step | ALPACABias.py:44-56 | one pass of the loop body: stop iff the measurement is within the tolerance (never for a set point of 0), or the wiper is at 255 and the measurement is low, or at 0 and not low; otherwise move one up if low and one down if not, staying in 0..255 (the same body in `vLNA` at lines 78-90) |
| ALPACABias.Climb | ALPACABias.py:37-56 | the loop writes at most one position per measurement, and it ends on the MAXITER guard exactly when the module-level index exceeds MAXITER |
| ALPACABias.ClimbTrace | ALPACABias.py:37-56 | the i-th measurement moves the wiper from the i-th to the (i+1)-th position; the run stops on the guard exactly when the module-level index exceeds MAXITER, otherwise exactly where a pass says stop, or when the measurements run out (the same loop in `vLNA` at lines 71-90) |
| ALPACABias.ClimbUnitSteps | ALPACABias.py:47-56 | each write moves the wiper by exactly 1, up after a low measurement and down otherwise, and only after a measurement outside the tolerance |
| ALPACABias.ClimbInRange | ALPACABias.py:48-56 | started in 0..255, every position written and the final one stay in 0..255 |
| ALPACABias.BoardLoopIndexNeverStops | ALPACABias.py:134-137 | with the value 18 that the board-construction loop leaves in `i`, the MAXITER guard of `iLNA` and `vLNA` (lines 38 and 72) never stops the loop |
| ALPACABias.ZeroSetPointWalksDown | ALPACABias.py:37-56 | with a set point of 0 and measurements that are not negative, the loop writes pos - 1, pos - 2, ..., 0 and stops at the bottom of the range |
| ALPACABias.OscillationNeverStops | ALPACABias.py:37-56 | measurements that alternate around the set point outside the tolerance keep the loop running for however many are supplied |
| ALPACABias.PotFramesAppend | ALPACABias.py:47-56 | the log of one more wiper write is the earlier log followed by that write's frame |
| ALPACABias.Tune | ALPACABias.py:33-56 | starting from the shadowed wiper position, the outcome and final position are those of `Climb`; only the selected wiper changes, to the final position; the log gains one framed `set_pot` per written position, in order, and nothing else on the board changes (`vLNA` repeats the loop at lines 67-90) |
| ALPACABias.ILna | ALPACABias.py:25-56 | on the board at crate address `ceil(chan / 8)` (the construction at lines 135-137 puts board i at index i - 1), `Tune` with the set current and a 5 % tolerance, for every set point including 0; the guard never fires |
| ALPACABias.VLna | ALPACABias.py:59-90 | on the board at crate address `ceil(chan / 8)` (the construction at lines 135-137 puts board i at index i - 1), `Tune` with the set voltage and a 5 % tolerance, for every set point including 0; the guard never fires |
| TuiConsoleCharsets.Code | arduino_based_testcode/TuiConsole.h:30-33 | every charset has a code in 1..4 |
| TuiConsoleCharsets.FromCode | arduino_based_testcode/TuiConsole.h:30-33 | exactly the codes 1..4 name a charset |
| TuiConsoleCharsets.CodeRoundTrip | arduino_based_testcode/TuiConsole.h:30-33 | code and charset convert into each other both ways, so there are exactly four charsets |
| TuiConsoleCharsets.IsAlpha | arduino_based_testcode/TuiConsole.h:30 | the Alpha characters: 'a'-'z', 'A'-'Z' and ' ' |
| TuiConsoleCharsets.IsDigit | arduino_based_testcode/TuiConsole.h:31-33 | the digits as the header lists them: '1'-'9' |
| TuiConsoleCharsets.InCharset | arduino_based_testcode/TuiConsole.h:30-33 | Alpha accepts the Alpha characters; Integer the digits and '-'; Decimal those and '.'; AlphaNumeric the Alpha characters and Decimal's |
| TuiConsoleCharsets.CharsetInclusions | arduino_based_testcode/TuiConsole.h:30-33 | Integer ⊂ Decimal ⊂ AlphaNumeric and Alpha ⊂ AlphaNumeric, each strictly, and Alpha and the numeric charsets are incomparable |
| TuiConsoleCharsets.AlphaNumericIsUnion | arduino_based_testcode/TuiConsole.h:33 | AlphaNumeric accepts exactly what Alpha or Decimal accepts |
| TuiConsoleCharsets.NoZeroNoColon | arduino_based_testcode/TuiConsole.h:31-33 | as the header lists the digits ('1-9'), no charset accepts '0' or ':' |
| TuiConsoleCharsets.Restrict | arduino_based_testcode/TuiConsole.h:45 | the filtered line is no longer than the input, only holds accepted characters, and holds every accepted character of the input |
| TuiConsoleCharsets.RestrictKeepsValid | arduino_based_testcode/TuiConsole.h:45 | the filter leaves a line unchanged iff every character of it is accepted |
| TuiConsoleCharsets.RestrictIdempotent | arduino_based_testcode/TuiConsole.h:45 | filtering twice is filtering once |
| TuiConsoleCharsets.RestrictConcat | arduino_based_testcode/TuiConsole.h:45 | the filter judges each character on its own: filtering `a + b` is filtering a, then b |
| TuiConsoleCharsets.RestrictNarrower | arduino_based_testcode/TuiConsole.h:45 | filtering by a wider charset and then a narrower one is filtering by the narrower one |
| TuiConsoleCharsets.GetRawInput | arduino_based_testcode/TuiConsole.h:45 | the line holds only characters of the charset, and every typed character of the charset |
| TuiConsoleCharsets.GetAlphaString | arduino_based_testcode/TuiConsole.h:58-64 | only 'a'-'z', 'A'-'Z' and ' ' are returned, and every such typed character is kept |
| TuiConsoleCharsets.GetString | arduino_based_testcode/TuiConsole.h:67-73 | only letters, ' ', '1'-'9', '-' and '.' are returned, and every such typed character is kept |
| TuiConsoleCharsets.AlphaStringIsString | arduino_based_testcode/TuiConsole.h:58-73 | a line `getAlphaString` returns passes `getString`'s filter unchanged |
| TuiConsoleCharsets.TuiConsole.constructor | arduino_based_testcode/TuiConsole.h:131 | echo is enabled by default |

## Left out

- I2C transport. The `odroid_wiringpi` calls (`setup`, `write`, `write8`,
  `write16`, `read16`, `close`) are foreign hardware calls. The model appends
  each write and read to the ghost log. The value a read returns is a
  parameter.
- File handles. A handle from `setup` is represented by the device address it
  was opened on. The `close` calls are not logged.
- `frptr` and `fina` are not kept. Each is a handle: `frptr` the one opened
  by the last connect, `fina` the one opened by the last `init_currsense`.
- Clock-speed file access. The sysfs read/write of the I2C clock speed in
  `BiasBoard.__init__` and the `sleep(0.1)` in `init_currsense` are file I/O
  and timing.
- `curr_divider`. Only the current measurements use it, through
  floating-point scaling. The constructor and `InitCurrSense` do not take it,
  and `ina219_currentDivider_mA`/`ina219_powerMultiplier_mW` are not kept.
- `get_shunt`, `get_bus`, `get_current`, `get_iLNA`, `get_vLNA`. They average
  six raw readings in floating point. Only the integer raw conversions are
  modelled.
- `__set_pot_linear`. It ignores `wiper` and `value` and writes a fixed word
  to the pot that `pot` selects.
- Default arguments. `set_pot`'s `value=0`, `set_ioexpander`'s `zero=False`
  and `init_currsense`'s `currentDivider=2.0` are not modelled as defaults.
  Each method takes every argument, and the divider is left out with
  `curr_divider`.
- The `prompt` argument of the console getters (TuiConsole.h:61). Printing it
  is console output.
- `test_bias_board`. It is an interactive `input()`/`print` routine.
- Construction of the 18 boards at module level. `ILna` and `VLna` take the
  board list as a sequence of 18 boards, and require the board at index
  i - 1 to have crate address i, as the construction loop leaves it. The index the construction loop
  leaves behind is the constant `BOARD_LOOP_INDEX`.
- The `print` of the MAXITER guard. It is console output.
- BiasControl.py and control.py are not part of this model.
- Console line editing and parsing are not modelled: backspace, line
  terminators, echo output, and the numeric parsing behind `getInt` and
  `getDouble`. The implementation file of the console is not part of this
  model. Only the header's charset promise is modelled, as a filter over the
  typed characters.
- Floating point. Measurements, set points and tolerances are Dafny `real`s.
  The tolerance test `abs(val - target) / target < tol` is therefore exact
  and has no rounding. The inf and nan of a zero set point are not values of
  the model; `WithinTolerance` states the comparison's outcome (false) instead.
- ALPACABias.Tune: the loop has no iteration bound, so it runs over a finite
  sequence of measurements. When they run out, the outcome is
  `OutOfReadings`; the source would take another measurement.
- ALPACABias.Tune: the log it describes holds the wiper writes only. The
  framed INA219 reads behind each measurement belong to the measurement,
  which is a parameter, and are not logged.
- BiasBoardControl.BiasBoard.InitCurrSense: the range check on `chan` runs in
  `__get_fina`, after the connect byte has been sent. The model requires a
  valid channel up front, so it does not model the connect left behind by a
  failed check.
- BiasBoardControl.BiasBoard.ReadRegister (and InaCurrentRaw, InaPowerRaw,
  InaShuntVoltageRaw, InaBusVoltageRaw): as in `init_currsense`, the range
  check on `chan` runs in `__get_fina`, after the connect byte has been sent.
  The model requires a channel in 1..8, so it does not model the connect left
  behind, without a disconnect, when a call with another channel fails.
- BiasBoardControl.BiasBoard.SetIoExpander: `pinstate` is a non-negative
  integer. Python's `~` on a non-negative shadow is modelled as "clear that
  bit", which is what `p & ~(1 << pin)` computes for non-negative `p`.
- TuiConsoleCharsets.TuiConsole.constructor: the serial port and baud rate
  that the header's constructor takes are not modelled, because serial I/O is
  left out. Only the echo flag is kept.
