/** One ALPACA bias board in the VME crate: the shadow state that stands in for
    its write-only I/O expander and digital potentiometers, the bus framing of
    every operation, and the integer conversions of the INA219 readings. */
module BiasBoardControl {
  import opened Wrappers
  import opened BusLog
  import opened Bits

  // Device instructions
  const AD5144_CMD_WRITE_RDAC := 0x10  // 0b00010000

  // Device addresses
  const PCF8575_BASE_ADDR := 0x20         // 0b0100000
  const LTC4302_BASE_ADDR := 0x60         // 0b1100000
  const DIGITALPOT_1_I2C_ADDR := 0x2F     // 0b0101111
  const DIGITALPOT_2_I2C_ADDR := 0x23     // 0b0100011
  const CURR_SENSE_BASE_I2C_ADDR := 0x48  // 0b1001000

  // INA219 registers
  const INA219_REG_CONFIG := 0x00
  const INA219_REG_SHUNTVOLTAGE := 0x01
  const INA219_REG_BUSVOLTAGE := 0x02
  const INA219_REG_POWER := 0x03
  const INA219_REG_CURRENT := 0x04
  const INA219_REG_CALIBRATION := 0x05

  const INA219_CONFIG_BVOLTAGERANGE_32V := 0x2000
  const INA219_CONFIG_GAIN_8_320MV := 0x1800
  const INA219_CONFIG_BADCRES_12BIT := 0x0180
  const INA219_CONFIG_SADCRES_12BIT_1S_532US := 0x0018
  const INA219_CONFIG_MODE_SANDBVOLT_CONTINUOUS := 0x07

  /** Configuration word: 32 V range, gain /8 (320 mV), 12-bit bus and shunt ADC,
      shunt and bus continuous, the `|` of the five flags, sent most
      significant byte first. */
  const INA219CONFIG := MSBF(Or(Or(Or(Or(INA219_CONFIG_BVOLTAGERANGE_32V, INA219_CONFIG_GAIN_8_320MV),
                                      INA219_CONFIG_BADCRES_12BIT),
                                   INA219_CONFIG_SADCRES_12BIT_1S_532US),
                                INA219_CONFIG_MODE_SANDBVOLT_CONTINUOUS))
  const INACALVALUE := MSBF(0x1000)

  /** Byte swap of a 16-bit word, on Python's unbounded integers: `& 0xFF` is
      the remainder modulo 256 and `>> 8` the floor division by 256. */
  function MSBF(val: int): (r: int)
    ensures 0 <= r < 0x1_0000
    ensures r / 0x100 == val % 0x100
    ensures r % 0x100 == (val / 0x100) % 0x100
  {
    (val % 0x100) * 0x100 + (val / 0x100) % 0x100
  }

  /** Swapping twice gives back every 16-bit word. */
  lemma MsbfInvolution(v: int)
    requires 0 <= v < 0x1_0000
    ensures MSBF(MSBF(v)) == v
  {
    var r := MSBF(v);
    assert v == (v / 0x100) * 0x100 + v % 0x100;
    assert r == (r / 0x100) * 0x100 + r % 0x100;
    assert v / 0x100 < 0x100;
  }

  /** Pin state after driving `pin` high (`state`) or low:
      `p | (1 << pin)` or `p & ~(1 << pin)`. */
  function NextPinState(p: nat, pin: nat, state: bool): (r: nat)
    requires pin <= 16
    ensures Bit(r, pin) == state
  {
    Pow2Bit(pin, pin);
    if state then
      OrBit(p, Pow2(pin), pin);
      Or(p, Pow2(pin))
    else
      AndNotBit(p, Pow2(pin), pin);
      AndNot(p, Pow2(pin))
  }

  /** Driving a pin gives it the new level and leaves every other pin as it was. */
  lemma NextPinStateBits(p: nat, pin: nat, state: bool, k: nat)
    requires pin <= 16
    ensures Bit(NextPinState(p, pin, state), k) == if k == pin then state else Bit(p, k)
  {
    Pow2Bit(pin, k);
    if state {
      OrBit(p, Pow2(pin), k);
    } else {
      AndNotBit(p, Pow2(pin), k);
    }
  }

  /** The two bytes written to the expander for pin state `p`: the low byte
      `p & 0xFF` (pins 0..7), then the high byte `(p & 0xFF00) >> 8` (pins 8..15). */
  function ExpanderBytes(p: nat): (b: (nat, nat))
    ensures b.0 < 0x100 && b.1 < 0x100
  {
    (p % 0x100, (p / 0x100) % 0x100)
  }

  /** Bit `k` of the low byte is pin `k`, bit `k` of the high byte is pin `k + 8`. */
  lemma ExpanderBytesCarryPins(p: nat, k: nat)
    requires k < 8
    ensures Bit(ExpanderBytes(p).0, k) == Bit(p, k)
    ensures Bit(ExpanderBytes(p).1, k) == Bit(p, k + 8)
  {
    assert Pow2(8) == 0x100;
    LowBits(p, 8, k);
    LowBits(p / 0x100, 8, k);
    ShrIsDiv(p, 8);
    HighBits(p, 8, k);
  }

  /** Two bytes with the same eight bits are the same byte. */
  lemma SameBitsSameByte(a: nat, b: nat)
    requires a < 0x100 && b < 0x100
    requires forall k: nat :: k < 8 ==> Bit(a, k) == Bit(b, k)
    ensures a == b
  {
    assert Pow2(8) == 0x100;
    SameLowBits(a, b, 8);
  }

  /** Pin 16 is kept in the shadow but never reaches the expander. */
  lemma Pin16NeverTransmitted(p: nat, state: bool)
    ensures Bit(NextPinState(p, 16, state), 16) == state
    ensures ExpanderBytes(NextPinState(p, 16, state)) == ExpanderBytes(p)
  {
    var r := NextPinState(p, 16, state);
    NextPinStateBits(p, 16, state, 16);
    forall k: nat | k < 8
      ensures Bit(ExpanderBytes(r).0, k) == Bit(ExpanderBytes(p).0, k)
      ensures Bit(ExpanderBytes(r).1, k) == Bit(ExpanderBytes(p).1, k)
    {
      ExpanderBytesCarryPins(r, k);
      ExpanderBytesCarryPins(p, k);
      NextPinStateBits(p, 16, state, k);
      NextPinStateBits(p, 16, state, k + 8);
    }
    SameBitsSameByte(ExpanderBytes(r).0, ExpanderBytes(p).0);
    SameBitsSameByte(ExpanderBytes(r).1, ExpanderBytes(p).1);
  }

  /** The pin state the startup sequence leaves: `(1 << 9) - 1`, exactly pins 0..8 high. */
  lemma PinsZeroToEightHigh(p: nat)
    requires p == Pow2(9) - 1
    ensures p == 0x1FF
    ensures forall k: nat :: Bit(p, k) <==> k <= 8
  {
    forall k: nat ensures Bit(p, k) <==> k <= 8 {
      LowMaskBit(9, k);
    }
  }

  /** Address of the board's LTC4302 repeater. */
  function RepeaterAddr(addr: int): (a: int)
    requires 1 <= addr <= 18
    ensures 0x61 <= a <= 0x72
  {
    LTC4302_BASE_ADDR + addr
  }

  /** Address of the INA219 current-sense chip of board channel `chan`. */
  function InaAddr(chan: int): (a: int)
    requires 1 <= chan <= 8
    ensures CURR_SENSE_BASE_I2C_ADDR <= a < CURR_SENSE_BASE_I2C_ADDR + 8
  {
    CURR_SENSE_BASE_I2C_ADDR + chan - 1
  }

  /** Address of digital pot 1 or 2: pot 2 for 2, pot 1 for anything else. */
  function PotAddr(pot: int): (a: int)
    ensures a == DIGITALPOT_2_I2C_ADDR <==> pot == 2
    ensures a == DIGITALPOT_1_I2C_ADDR <==> pot != 2
  {
    if pot == 2 then DIGITALPOT_2_I2C_ADDR else DIGITALPOT_1_I2C_ADDR
  }

  /** The devices behind the repeater have distinct addresses, and none of them
      has the address of any board's repeater. */
  lemma DeviceAddressesDistinct(addr: int, chan: int, chan': int)
    requires 1 <= addr <= 18 && 1 <= chan <= 8 && 1 <= chan' <= 8
    ensures InaAddr(chan) == InaAddr(chan') <==> chan == chan'
    ensures InaAddr(chan) !in {PCF8575_BASE_ADDR, DIGITALPOT_1_I2C_ADDR, DIGITALPOT_2_I2C_ADDR, RepeaterAddr(addr)}
    ensures RepeaterAddr(addr) !in {PCF8575_BASE_ADDR, DIGITALPOT_1_I2C_ADDR, DIGITALPOT_2_I2C_ADDR}
    ensures PCF8575_BASE_ADDR !in {DIGITALPOT_1_I2C_ADDR, DIGITALPOT_2_I2C_ADDR}
    ensures DIGITALPOT_1_I2C_ADDR != DIGITALPOT_2_I2C_ADDR
  {
  }

  /** Raw INA219 bus-voltage register to millivolts: drop the CNVR, OVF and
      reserved bits 0..2 and multiply by the 4 mV LSB. The result is the largest
      multiple of 4 not above `reg / 2`. */
  function BusVoltageMillivolts(reg: int): (mv: int)
    ensures mv % 4 == 0
    ensures mv <= reg / 2 < mv + 4
    ensures 0 <= reg < 0x1_0000 ==> 0 <= mv <= 0x7FFC
  {
    (reg / 8) * 4
  }

  /** The three low status bits never change the reading. */
  lemma BusVoltageIgnoresStatusBits(reg: int, low: int)
    requires 0 <= low < 8
    ensures BusVoltageMillivolts(reg - reg % 8 + low) == BusVoltageMillivolts(reg)
  {
    var q := reg / 8;
    assert reg - reg % 8 == 8 * q;
    assert (8 * q + low) / 8 == q;
  }

  /** The wiper shadows: `pot1` and `pot2` each hold the four wipers of one pot. */
  predicate ShadowOk(pot1: seq<int>, pot2: seq<int>)
  {
    |pot1| == 4 && |pot2| == 4
  }

  /** Wiper `wiper` (1..4) of pot `pot` (1 or 2) in the shadows. */
  function WiperOf(pot1: seq<int>, pot2: seq<int>, pot: int, wiper: int): (v: int)
    requires ShadowOk(pot1, pot2) && (pot == 1 || pot == 2) && 1 <= wiper <= 4
    ensures WriteWiper(pot1, pot2, pot, wiper, v) == (pot1, pot2)
  {
    var w := wiper - 1;
    if pot == 2 then
      assert pot2[w := pot2[w]] == pot2;
      pot2[w]
    else
      assert pot1[w := pot1[w]] == pot1;
      pot1[w]
  }

  /** The shadows after writing `value` to wiper `wiper` of pot `pot`. */
  function WriteWiper(pot1: seq<int>, pot2: seq<int>, pot: int, wiper: int, value: int): (s: (seq<int>, seq<int>))
    requires ShadowOk(pot1, pot2) && (pot == 1 || pot == 2) && 1 <= wiper <= 4
    ensures ShadowOk(s.0, s.1)
  {
    if pot == 2 then (pot1, pot2[wiper - 1 := value]) else (pot1[wiper - 1 := value], pot2)
  }

  /** Reading a wiper back gives the value last written to it; every other
      wiper keeps its value. */
  lemma WiperReadBack(pot1: seq<int>, pot2: seq<int>, pot: int, wiper: int, value: int, p: int, w: int)
    requires ShadowOk(pot1, pot2) && (pot == 1 || pot == 2) && 1 <= wiper <= 4
    requires (p == 1 || p == 2) && 1 <= w <= 4
    ensures var s := WriteWiper(pot1, pot2, pot, wiper, value);
            WiperOf(s.0, s.1, p, w) == if p == pot && w == wiper then value else WiperOf(pot1, pot2, p, w)
  {
  }

  /** A second write to the same wiper overrides the first. */
  lemma WriteWiperTwice(pot1: seq<int>, pot2: seq<int>, pot: int, wiper: int, v: int, v': int)
    requires ShadowOk(pot1, pot2) && (pot == 1 || pot == 2) && 1 <= wiper <= 4
    ensures var s := WriteWiper(pot1, pot2, pot, wiper, v);
            WriteWiper(s.0, s.1, pot, wiper, v') == WriteWiper(pot1, pot2, pot, wiper, v')
  {
    var w := wiper - 1;
    if pot == 2 {
      assert pot2[w := v][w := v'] == pot2[w := v'];
    } else {
      assert pot1[w := v][w := v'] == pot1[w := v'];
    }
  }

  /** Writing 0 to wipers 1..4 of one pot, in order, zeroes that pot and
      leaves the other. */
  lemma ZeroWipers(pot1: seq<int>, pot2: seq<int>, pot: int)
    requires ShadowOk(pot1, pot2) && (pot == 1 || pot == 2)
    ensures var s1 := WriteWiper(pot1, pot2, pot, 1, 0);
            var s2 := WriteWiper(s1.0, s1.1, pot, 2, 0);
            var s3 := WriteWiper(s2.0, s2.1, pot, 3, 0);
            WriteWiper(s3.0, s3.1, pot, 4, 0) == if pot == 1 then ([0, 0, 0, 0], pot2) else (pot1, [0, 0, 0, 0])
  {
    if pot == 1 {
      assert pot1[0 := 0][1 := 0][2 := 0][3 := 0] == [0, 0, 0, 0];
    } else {
      assert pot2[0 := 0][1 := 0][2 := 0][3 := 0] == [0, 0, 0, 0];
    }
  }

  // Logs of the board's operations, each framed by repeater commands.

  function ExpanderFrame(addr: int, p: nat): (log: seq<Txn>)
    requires 1 <= addr <= 18
  {
    var (lo, hi) := ExpanderBytes(p);
    Framed(RepeaterAddr(addr), [RegWrite16(PCF8575_BASE_ADDR, lo, hi)])
  }

  function PotFrame(addr: int, pot: int, wiper: int, value: int): (log: seq<Txn>)
    requires 1 <= addr <= 18
  {
    Framed(RepeaterAddr(addr), [RegWrite8(PotAddr(pot), AD5144_CMD_WRITE_RDAC + wiper - 1, value)])
  }

  /** One `PotFrame` per value in `values`, in order. */
  function PotFrames(addr: int, pot: int, wiper: int, values: seq<int>): (log: seq<Txn>)
    requires 1 <= addr <= 18
    ensures |log| == 3 * |values|
  {
    if values == [] then [] else PotFrame(addr, pot, wiper, values[0]) + PotFrames(addr, pot, wiper, values[1..])
  }

  /** `log` followed by the frames of zeroing the eight wipers. */
  function AfterZeroPots(addr: int, log: seq<Txn>): (log': seq<Txn>)
    requires 1 <= addr <= 18
  {
    log + PotFrame(addr, 1, 1, 0) + PotFrame(addr, 1, 2, 0) + PotFrame(addr, 1, 3, 0) + PotFrame(addr, 1, 4, 0)
        + PotFrame(addr, 2, 1, 0) + PotFrame(addr, 2, 2, 0) + PotFrame(addr, 2, 3, 0) + PotFrame(addr, 2, 4, 0)
  }

  function InitFrame(addr: int, chan: int): (log: seq<Txn>)
    requires 1 <= addr <= 18 && 1 <= chan <= 8
  {
    Framed(RepeaterAddr(addr), [RegWrite16(InaAddr(chan), INA219_REG_CALIBRATION, INACALVALUE),
                                RegWrite16(InaAddr(chan), INA219_REG_CONFIG, INA219CONFIG)])
  }

  function ReadFrame(addr: int, chan: int, reg: int, calibrate: bool): (log: seq<Txn>)
    requires 1 <= addr <= 18 && 1 <= chan <= 8
  {
    var ina := InaAddr(chan);
    Framed(RepeaterAddr(addr),
           (if calibrate then [RegWrite16(ina, INA219_REG_CALIBRATION, INACALVALUE)] else []) + [RegRead16(ina, reg)])
  }

  /** Log of the startup sequence up to and including channel `n`: clear the
      expander, raise pin 0, then for each channel 1..n initialise its current
      sense chip and raise its pin. */
  function StartupPrefix(addr: int, n: int): (log: seq<Txn>)
    requires 1 <= addr <= 18 && 0 <= n <= 8
    ensures |log| == 6 + 7 * n
  {
    if n == 0 then ExpanderFrame(addr, 0) + ExpanderFrame(addr, Pow2(1) - 1)
    else StartupPrefix(addr, n - 1) + InitFrame(addr, n) + ExpanderFrame(addr, Pow2(n + 1) - 1)
  }

  /** The whole startup sequence, ending with the zeroing of the eight wipers:
      ten expander frames and eight wiper frames of three calls each, and eight
      initialisation frames of four. */
  function StartupLog(addr: int): (log: seq<Txn>)
    requires 1 <= addr <= 18
    ensures |log| == 3 * (10 + 8) + 4 * 8
  {
    AfterZeroPots(addr, StartupPrefix(addr, 8))
  }

  /** Each kind of frame of the startup sequence keeps the repeater protocol. */
  lemma ExpanderFrameKeepsProtocol(addr: int, log: seq<Txn>, p: nat)
    requires 1 <= addr <= 18
    requires LinkRun(RepeaterAddr(addr), false, log) == Some(false)
    ensures LinkRun(RepeaterAddr(addr), false, log + ExpanderFrame(addr, p)) == Some(false)
  {
    var (lo, hi) := ExpanderBytes(p);
    FramedKeepsProtocol(RepeaterAddr(addr), log, [RegWrite16(PCF8575_BASE_ADDR, lo, hi)]);
  }

  lemma InitFrameKeepsProtocol(addr: int, log: seq<Txn>, chan: int)
    requires 1 <= addr <= 18 && 1 <= chan <= 8
    requires LinkRun(RepeaterAddr(addr), false, log) == Some(false)
    ensures LinkRun(RepeaterAddr(addr), false, log + InitFrame(addr, chan)) == Some(false)
  {
    var ina := InaAddr(chan);
    FramedKeepsProtocol(RepeaterAddr(addr), log, [RegWrite16(ina, INA219_REG_CALIBRATION, INACALVALUE),
                                                  RegWrite16(ina, INA219_REG_CONFIG, INA219CONFIG)]);
  }

  lemma PotFrameKeepsProtocol(addr: int, log: seq<Txn>, pot: int, wiper: int)
    requires 1 <= addr <= 18
    requires LinkRun(RepeaterAddr(addr), false, log) == Some(false)
    ensures LinkRun(RepeaterAddr(addr), false, log + PotFrame(addr, pot, wiper, 0)) == Some(false)
  {
    FramedKeepsProtocol(RepeaterAddr(addr), log, [RegWrite8(PotAddr(pot), AD5144_CMD_WRITE_RDAC + wiper - 1, 0)]);
  }

  lemma {:induction false} StartupPrefixKeepsProtocol(addr: int, n: int)
    requires 1 <= addr <= 18 && 0 <= n <= 8
    ensures LinkRun(RepeaterAddr(addr), false, StartupPrefix(addr, n)) == Some(false)
  {
    if n == 0 {
      assert LinkRun(RepeaterAddr(addr), false, []) == Some(false);
      ExpanderFrameKeepsProtocol(addr, [], 0);
      assert [] + ExpanderFrame(addr, 0) == ExpanderFrame(addr, 0);
      ExpanderFrameKeepsProtocol(addr, ExpanderFrame(addr, 0), Pow2(1) - 1);
    } else {
      StartupPrefixKeepsProtocol(addr, n - 1);
      InitFrameKeepsProtocol(addr, StartupPrefix(addr, n - 1), n);
      ExpanderFrameKeepsProtocol(addr, StartupPrefix(addr, n - 1) + InitFrame(addr, n), Pow2(n + 1) - 1);
    }
  }

  /** The startup sequence keeps the repeater protocol: a fresh board's log
      starts and ends with the bus disconnected. */
  lemma StartupKeepsProtocol(addr: int)
    requires 1 <= addr <= 18
    ensures LinkRun(RepeaterAddr(addr), false, StartupLog(addr)) == Some(false)
  {
    var log := StartupPrefix(addr, 8);
    StartupPrefixKeepsProtocol(addr, 8);
    PotFrameKeepsProtocol(addr, log, 1, 1);
    log := log + PotFrame(addr, 1, 1, 0);
    PotFrameKeepsProtocol(addr, log, 1, 2);
    log := log + PotFrame(addr, 1, 2, 0);
    PotFrameKeepsProtocol(addr, log, 1, 3);
    log := log + PotFrame(addr, 1, 3, 0);
    PotFrameKeepsProtocol(addr, log, 1, 4);
    log := log + PotFrame(addr, 1, 4, 0);
    PotFrameKeepsProtocol(addr, log, 2, 1);
    log := log + PotFrame(addr, 2, 1, 0);
    PotFrameKeepsProtocol(addr, log, 2, 2);
    log := log + PotFrame(addr, 2, 2, 0);
    PotFrameKeepsProtocol(addr, log, 2, 3);
    log := log + PotFrame(addr, 2, 3, 0);
    PotFrameKeepsProtocol(addr, log, 2, 4);
  }

  /** A bias board at crate address `addr`. The I/O expander and the digital
      pots cannot be read back, so the board keeps what it last wrote to them:
      `pinstate` for the expander pins and `pot1`/`pot2` for the four wipers of
      each pot. `bus` is the log of the transport calls this board has made. */
  class BiasBoard {
    const addr: int
    var pinstate: nat
    var pot1: seq<int>
    var pot2: seq<int>
    ghost var bus: seq<Txn>

    /** The shadows have their shape, every wiper value is a byte, and every
        call so far was made inside a connect/disconnect pair of the board's
        repeater, which is now disconnected. */
    ghost predicate Valid()
      reads this
    {
      && 1 <= addr <= 18
      && |pot1| == 4 && |pot2| == 4
      && (forall i :: 0 <= i < 4 ==> 0 <= pot1[i] <= 255)
      && (forall i :: 0 <= i < 4 ==> 0 <= pot2[i] <= 255)
      && LinkRun(RepeaterAddr(addr), false, bus) == Some(false)
    }

    /** Startup: clear the expander, raise pin 0, initialise the current sense
        chip of each channel 1..8 and raise its pin, then zero every wiper. */
    constructor (addr: int)
      requires 1 <= addr <= 18
      ensures Valid()
      ensures this.addr == addr
      ensures pinstate == 0x1FF
      ensures forall k: nat :: Bit(pinstate, k) <==> k <= 8
      ensures pot1 == [0, 0, 0, 0] && pot2 == [0, 0, 0, 0]
      ensures bus == StartupLog(addr)
    {
      this.addr := addr;
      pinstate := 0;
      pot1 := [0, 0, 0, 0];
      pot2 := [0, 0, 0, 0];
      bus := [];
      new;
      ZeroIoExpander();
      SetIoExpander(0, true, false);
      OrNextBit(0);
      assert bus == StartupPrefix(addr, 0);
      for j := 1 to 9
        invariant Valid() && this.addr == addr
        invariant pinstate == Pow2(j) - 1
        invariant bus == StartupPrefix(addr, j - 1)
      {
        ghost var before := bus;
        InitCurrSense(j);
        SetIoExpander(j, true, false);
        OrNextBit(j);
        assert pinstate == Pow2(j + 1) - 1;
        assert bus == before + InitFrame(addr, j) + ExpanderFrame(addr, Pow2(j + 1) - 1);
      }
      ZeroPots();
      PinsZeroToEightHigh(pinstate);
    }

    /** Wiper `wiper` (1..4) of pot `pot` (1 or 2) as last written. */
    function GetPot(pot: int, wiper: int): (v: int)
      reads this
      requires Valid()
      requires pot == 1 || pot == 2
      requires 1 <= wiper <= 4
      ensures 0 <= v <= 255
    {
      WiperOf(pot1, pot2, pot, wiper)
    }

    /** Connect the board's bus through its repeater. */
    method Start()
      requires 1 <= addr <= 18
      modifies this`bus
      ensures bus == old(bus) + [ByteWrite(RepeaterAddr(addr), INSTR_LTCCONNECT)]
    {
      bus := bus + [ByteWrite(RepeaterAddr(addr), INSTR_LTCCONNECT)];
    }

    /** Disconnect the board's bus from the repeater. */
    method End()
      requires 1 <= addr <= 18
      modifies this`bus
      ensures bus == old(bus) + [ByteWrite(RepeaterAddr(addr), INSTR_LTCDISCONNECT)]
    {
      bus := bus + [ByteWrite(RepeaterAddr(addr), INSTR_LTCDISCONNECT)];
    }

    /** Drive expander pin `pin` (0..16) high or low, or with `zero` clear every
        pin, and send the new state as its low byte then its high byte. */
    method SetIoExpander(pin: int, state: bool, zero: bool)
      requires Valid()
      requires 0 <= pin <= 16
      modifies this
      ensures Valid()
      ensures pinstate == if zero then 0 else NextPinState(old(pinstate), pin, state)
      ensures pot1 == old(pot1) && pot2 == old(pot2)
      ensures bus == old(bus) + ExpanderFrame(addr, pinstate)
    {
      Start();
      var iox := PCF8575_BASE_ADDR;
      ghost var inner: seq<Txn>;
      if zero {
        pinstate := 0;
        inner := [RegWrite16(iox, 0, 0)];
      } else {
        var p := pinstate;
        if state {
          p := Or(p, Pow2(pin));
        } else {
          p := AndNot(p, Pow2(pin));
        }
        pinstate := p;
        var (lo, hi) := ExpanderBytes(p);
        inner := [RegWrite16(iox, lo, hi)];
      }
      bus := bus + inner;
      End();
      FramedKeepsProtocol(RepeaterAddr(addr), old(bus), inner);
    }

    /** Drive every expander pin low. */
    method ZeroIoExpander()
      requires Valid()
      modifies this
      ensures Valid()
      ensures pinstate == 0
      ensures pot1 == old(pot1) && pot2 == old(pot2)
      ensures bus == old(bus) + ExpanderFrame(addr, 0)
    {
      SetIoExpander(0, false, true);
    }

    /** Set wiper `wiper` of pot `pot` to `value`: one RDAC write, command byte
        `0x10 + wiper - 1` then the value. */
    method SetPot(pot: int, wiper: int, value: int)
      requires Valid()
      requires 1 <= wiper <= 4
      requires pot == 1 || pot == 2
      requires 0 <= value <= 255
      modifies this
      ensures Valid()
      ensures GetPot(pot, wiper) == value
      ensures (pot1, pot2) == WriteWiper(old(pot1), old(pot2), pot, wiper, value)
      ensures pinstate == old(pinstate)
      ensures bus == old(bus) + PotFrame(addr, pot, wiper, value)
    {
      var w := wiper - 1;
      Start();
      var dev;
      if pot == 2 {
        dev := DIGITALPOT_2_I2C_ADDR;
        pot2 := pot2[w := value];
      } else {
        dev := DIGITALPOT_1_I2C_ADDR;
        pot1 := pot1[w := value];
      }
      ghost var inner := [RegWrite8(dev, AD5144_CMD_WRITE_RDAC + w, value)];
      bus := bus + inner;
      End();
      FramedKeepsProtocol(RepeaterAddr(addr), old(bus), inner);
    }

    /** Set all eight wipers to 0, pot 1 wipers 1..4 then pot 2 wipers 1..4. */
    method ZeroPots()
      requires Valid()
      modifies this
      ensures Valid()
      ensures pot1 == [0, 0, 0, 0] && pot2 == [0, 0, 0, 0]
      ensures pinstate == old(pinstate)
      ensures bus == AfterZeroPots(addr, old(bus))
    {
      ZeroWipers(pot1, pot2, 1);
      SetPot(1, 1, 0);
      SetPot(1, 2, 0);
      SetPot(1, 3, 0);
      SetPot(1, 4, 0);
      ZeroWipers(pot1, pot2, 2);
      SetPot(2, 1, 0);
      SetPot(2, 2, 0);
      SetPot(2, 3, 0);
      SetPot(2, 4, 0);
    }

    /** Initialise the INA219 of channel `chan`: calibration register, then
        configuration register. */
    method InitCurrSense(chan: int)
      requires Valid()
      requires 1 <= chan <= 8
      modifies this
      ensures Valid()
      ensures pinstate == old(pinstate) && pot1 == old(pot1) && pot2 == old(pot2)
      ensures bus == old(bus) + InitFrame(addr, chan)
    {
      Start();
      var fina := InaAddr(chan);
      ghost var inner := [RegWrite16(fina, INA219_REG_CALIBRATION, INACALVALUE),
                          RegWrite16(fina, INA219_REG_CONFIG, INA219CONFIG)];
      bus := bus + inner;
      End();
      FramedKeepsProtocol(RepeaterAddr(addr), old(bus), inner);
    }

    /** One INA219 register read; `reading` is what the transport returns. */
    method ReadRegister(chan: int, reg: int, calibrate: bool, reading: int) returns (val: int)
      requires Valid()
      requires 1 <= chan <= 8
      modifies this`bus
      ensures Valid()
      ensures val == MSBF(reading)
      ensures bus == old(bus) + ReadFrame(addr, chan, reg, calibrate)
    {
      Start();
      var ina := InaAddr(chan);
      ghost var inner := (if calibrate then [RegWrite16(ina, INA219_REG_CALIBRATION, INACALVALUE)] else [])
                         + [RegRead16(ina, reg)];
      bus := bus + inner;
      val := MSBF(reading);
      End();
      FramedKeepsProtocol(RepeaterAddr(addr), old(bus), inner);
    }

    /** Raw current register: re-write the calibration, then read. */
    method InaCurrentRaw(chan: int, reading: int) returns (val: int)
      requires Valid()
      requires 1 <= chan <= 8
      modifies this`bus
      ensures Valid()
      ensures 0 <= val < 0x1_0000 && val == MSBF(reading)
      ensures bus == old(bus) + ReadFrame(addr, chan, INA219_REG_CURRENT, true)
    {
      val := ReadRegister(chan, INA219_REG_CURRENT, true, reading);
    }

    /** Raw power register: re-write the calibration, then read. */
    method InaPowerRaw(chan: int, reading: int) returns (val: int)
      requires Valid()
      requires 1 <= chan <= 8
      modifies this`bus
      ensures Valid()
      ensures 0 <= val < 0x1_0000 && val == MSBF(reading)
      ensures bus == old(bus) + ReadFrame(addr, chan, INA219_REG_POWER, true)
    {
      val := ReadRegister(chan, INA219_REG_POWER, true, reading);
    }

    /** Raw shunt-voltage register: read without re-writing the calibration. */
    method InaShuntVoltageRaw(chan: int, reading: int) returns (val: int)
      requires Valid()
      requires 1 <= chan <= 8
      modifies this`bus
      ensures Valid()
      ensures 0 <= val < 0x1_0000 && val == MSBF(reading)
      ensures bus == old(bus) + ReadFrame(addr, chan, INA219_REG_SHUNTVOLTAGE, false)
    {
      val := ReadRegister(chan, INA219_REG_SHUNTVOLTAGE, false, reading);
    }

    /** Bus voltage in millivolts: re-write the calibration, read, swap the
        bytes, drop the three status bits and scale by the 4 mV LSB. */
    method InaBusVoltageRaw(chan: int, reading: int) returns (mv: int)
      requires Valid()
      requires 1 <= chan <= 8
      modifies this`bus
      ensures Valid()
      ensures mv == BusVoltageMillivolts(MSBF(reading))
      ensures 0 <= mv <= 0x7FFC && mv % 4 == 0
      ensures bus == old(bus) + ReadFrame(addr, chan, INA219_REG_BUSVOLTAGE, true)
    {
      var val := ReadRegister(chan, INA219_REG_BUSVOLTAGE, true, reading);
      mv := (val / 8) * 4;
    }
  }
}
