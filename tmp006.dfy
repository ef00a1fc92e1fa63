/** The TMP006 infrared thermopile sensor driver: its register map, the
    configuration word `begin` writes, the power-mode read-modify-writes of
    `sleep` and `wake`, and the two raw register reads the temperature
    conversions start from.
 */
module TMP006Driver {
  import opened Word16
  import opened I2C

  // Register addresses.
  const CONFIG: Register := 0x02
  const MANID: Register := 0xFE
  const DEVID: Register := 0xFF
  const VOBJ: Register := 0x00
  const TAMB: Register := 0x01

  // Configuration register fields.
  const CFG_RESET: Word := 0x8000
  const CFG_MODEON: Word := 0x7000
  const CFG_DRDYEN: Word := 0x0100
  const CFG_DRDY: Word := 0x0080
  /** Bits 9-11 of CONFIG: how many ADC samples are averaged per conversion. */
  const CFG_RATE_FIELD: Word := 0x0E00

  // The sample-rate masks `begin` accepts, as the integers a caller passes.
  const CFG_1SAMPLE: int := 0x0000
  const CFG_2SAMPLE: int := 0x0200
  const CFG_4SAMPLE: int := 0x0400
  const CFG_8SAMPLE: int := 0x0600
  const CFG_16SAMPLE: int := 0x0800

  // The identification a genuine TMP006 reports.
  const MANUFACTURER_ID: Word := 0x5449
  const DEVICE_ID: Word := 0x0067

  datatype Error = ValueError

  datatype Result<T> = Success(value: T) | Failure(error: Error)

  datatype Option<T> = None | Some(value: T)

  /** The sample rates `begin` accepts: exactly the multiples of 0x0200 from
      0x0000 to 0x0800, one per value of the rate field that names a count. */
  function IsSampleRate(samplerate: int): (accepted: bool)
    ensures accepted <==> 0 <= samplerate <= 0x0800 && samplerate % 0x0200 == 0
  {
    samplerate in {CFG_1SAMPLE, CFG_2SAMPLE, CFG_4SAMPLE, CFG_8SAMPLE, CFG_16SAMPLE}
  }

  /** An accepted sample rate as the 16-bit mask it is: the word whose unsigned
      value is the integer the caller passed, which lies inside the rate field. */
  function RateMask(samplerate: int): (mask: Word)
    requires IsSampleRate(samplerate)
    ensures Unsigned(mask) == samplerate
    ensures mask & !CFG_RATE_FIELD == 0
  {
    var mask: Word :=
      if samplerate == CFG_1SAMPLE then 0x0000
      else if samplerate == CFG_2SAMPLE then 0x0200
      else if samplerate == CFG_4SAMPLE then 0x0400
      else if samplerate == CFG_8SAMPLE then 0x0600
      else 0x0800;
    UnsignedDigits(mask);
    mask
  }

  /** The configuration `begin` asks for: chip on, data-ready output enabled,
      and the requested averaging, before its bytes are put in wire order. */
  function ConfigWord(samplerate: int): (config: Word)
    requires IsSampleRate(samplerate)
    ensures 0x7100 <= config <= 0x7900
    ensures config & CFG_MODEON == CFG_MODEON
    ensures config & CFG_DRDYEN == CFG_DRDYEN
    ensures config & CFG_RATE_FIELD == RateMask(samplerate)
    ensures config & CFG_RESET == 0 && config & CFG_DRDY == 0
    ensures LowByte(config) == 0
  {
    CFG_MODEON | CFG_DRDYEN | RateMask(samplerate)
  }

  /** The sample rate a configuration word asks for, when its rate field holds
      one of the five masks. */
  function SampleRateOf(config: Word): (rate: Option<int>)
    ensures rate.Some? ==> IsSampleRate(rate.value)
  {
    var field := config & CFG_RATE_FIELD;
    if field == 0x0000 then Some(CFG_1SAMPLE)
    else if field == 0x0200 then Some(CFG_2SAMPLE)
    else if field == 0x0400 then Some(CFG_4SAMPLE)
    else if field == 0x0600 then Some(CFG_8SAMPLE)
    else if field == 0x0800 then Some(CFG_16SAMPLE)
    else None
  }

  /** Decoding the configuration word gives back the sample rate it was built from. */
  lemma ConfigWordDecodes(samplerate: int)
    requires IsSampleRate(samplerate)
    ensures SampleRateOf(ConfigWord(samplerate)) == Some(samplerate)
  {
  }

  /** Conversely, a word with the chip on, data-ready enabled, nothing else set
      and a valid rate field is the configuration word of that rate. */
  lemma ConfigWordOnlyFrom(config: Word)
    requires config & !(CFG_MODEON | CFG_DRDYEN | CFG_RATE_FIELD) == 0
    requires config & (CFG_MODEON | CFG_DRDYEN) == CFG_MODEON | CFG_DRDYEN
    requires SampleRateOf(config).Some?
    ensures ConfigWord(SampleRateOf(config).value) == config
  {
  }

  /** Different sample rates give different configuration words. */
  lemma ConfigWordInjective(a: int, b: int)
    requires IsSampleRate(a) && IsSampleRate(b)
    ensures ConfigWord(a) == ConfigWord(b) <==> a == b
  {
    ConfigWordDecodes(a);
    ConfigWordDecodes(b);
  }

  /** The byte exchange `begin` applies to the configuration word: the low
      byte moved up, the high byte moved down. */
  function SwapBytes(c: Word): (swapped: Word)
    ensures HighByte(swapped) == LowByte(c) && LowByte(swapped) == HighByte(c)
  {
    ((c & 0xFF) << 8) | (c >> 8)
  }

  /** Swapping twice gives the word back. */
  lemma SwapBytesInvolution(c: Word)
    ensures SwapBytes(SwapBytes(c)) == c
  {
  }

  /** What a register holds after `write16` of `value`: the byte exchange of it. */
  lemma WriteStoresSwapped(value: Word)
    ensures FromBytes(LowByte(value), HighByte(value)) == SwapBytes(value)
  {
  }

  /** With the low byte of the swapped word going out first, the chip receives
      the high byte of `c` first and so stores `c` itself. */
  lemma SwappedWriteDeliversBigEndian(c: Word)
    ensures WireOrder(SwapBytes(c)) == (HighByte(c), LowByte(c))
    ensures FromBytes(WireOrder(SwapBytes(c)).0, WireOrder(SwapBytes(c)).1) == c
  {
    BytesRoundTrip(c);
  }

  /** The value `sleep` writes back: the word read with the mode bits cleared.
      (Python complements the mask as an unbounded integer; on a 16-bit value
      read from the chip that clears the same three bits.) */
  function SleepWord(control: Word): (r: Word)
    ensures r & CFG_MODEON == 0
    ensures r & !CFG_MODEON == control & !CFG_MODEON
  {
    control & !CFG_MODEON
  }

  /** The value `wake` writes back: the word read with the mode bits set. */
  function WakeWord(control: Word): (r: Word)
    ensures r & CFG_MODEON == CFG_MODEON
    ensures r & !CFG_MODEON == control & !CFG_MODEON
  {
    control | CFG_MODEON
  }

  lemma SleepWordIdempotent(c: Word)
    ensures SleepWord(SleepWord(c)) == SleepWord(c)
  {
  }

  lemma WakeWordIdempotent(c: Word)
    ensures WakeWord(WakeWord(c)) == WakeWord(c)
  {
  }

  /** Waking a slept word sets the mode bits on top of the original, and
      gives the original back when the chip was on to begin with. */
  lemma WakeAfterSleep(c: Word)
    ensures WakeWord(SleepWord(c)) == c | CFG_MODEON
    ensures c & CFG_MODEON == CFG_MODEON ==> WakeWord(SleepWord(c)) == c
  {
  }

  lemma SleepAfterWake(c: Word)
    ensures SleepWord(WakeWord(c)) == SleepWord(c)
  {
  }

  /** The configuration register's contents after `begin(samplerate)` and then
      `sleep()`, both through `write16`: `begin` swapped its bytes and `sleep`
      does not, so the chip ends up with the slept word byte-exchanged: the
      data-ready enable and the rate field moved down into the low byte. */
  function ConfigAfterSleep(samplerate: int): (config: Word)
    requires IsSampleRate(samplerate)
    ensures config == (CFG_DRDYEN | RateMask(samplerate)) >> 8
  {
    SwapBytes(SleepWord(ConfigWord(samplerate)))
  }

  /** ... and after a following `wake()`: the data-ready enable and the rate
      field are back in place, the mode bits are still clear, and bits 4-6
      are set. */
  function ConfigAfterSleepWake(samplerate: int): (config: Word)
    requires IsSampleRate(samplerate)
    ensures config == CFG_DRDYEN | RateMask(samplerate) | 0x0070
  {
    SwapBytes(WakeWord(ConfigAfterSleep(samplerate)))
  }

  /** Because `sleep` and `wake` write the word they read back through the
      little-endian `write16` unswapped, the mode bits they mean to change land
      in the low byte of the register. After begin and sleep the mode bits and
      the rate field are clear; after a further wake the mode bits are still
      clear, the rest of the configuration is back in the high byte, and bits
      4-6 are set instead. */
  lemma SleepWakeAfterBeginLeavesModeOff(samplerate: int)
    requires IsSampleRate(samplerate)
    ensures ConfigAfterSleep(samplerate) & CFG_MODEON == 0
    ensures ConfigAfterSleep(samplerate) & CFG_RATE_FIELD == 0
    ensures ConfigAfterSleepWake(samplerate) & CFG_MODEON == 0
    ensures ConfigAfterSleepWake(samplerate) == SleepWord(ConfigWord(samplerate)) | 0x0070
  {
  }

  /** Calling `sleep` twice after `begin` is not idempotent on the chip: the
      second call exchanges the bytes back, so CONFIG toggles between the
      slept word and its byte exchange. */
  lemma SleepTwiceAfterBeginToggles(samplerate: int)
    requires IsSampleRate(samplerate)
    ensures SwapBytes(SleepWord(ConfigAfterSleep(samplerate))) == SleepWord(ConfigWord(samplerate))
    ensures SwapBytes(SleepWord(ConfigAfterSleep(samplerate))) != ConfigAfterSleep(samplerate)
  {
  }

  /** The driver object: it owns the device handle and talks to the chip only
      through `write16`, `readU16BE` and `readS16BE`. */
  class TMP006 {
    const device: Device

    constructor (device: Device)
      ensures this.device == device
    {
      this.device := device;
    }

    /** Rejects any sample rate but the five masks before touching the bus;
        otherwise writes the configuration word in big-endian wire order and
        reports whether both identification registers read as a TMP006. */
    method Begin(samplerate: int := CFG_16SAMPLE) returns (result: Result<bool>)
      requires device.Valid()
      modifies device
      ensures device.Valid()
      ensures !IsSampleRate(samplerate) ==> result == Failure(ValueError) && unchanged(device)
      ensures IsSampleRate(samplerate) ==>
        && device.writes == old(device.writes)
             + [WordWrite(CONFIG, HighByte(ConfigWord(samplerate)), LowByte(ConfigWord(samplerate)))]
        && device.registers == old(device.registers)[CONFIG := ConfigWord(samplerate)]
        && result == Success(old(device.registers)[MANID] == MANUFACTURER_ID
                             && old(device.registers)[DEVID] == DEVICE_ID)
    {
      if !IsSampleRate(samplerate) {
        return Failure(ValueError);
      }
      var config := ConfigWord(samplerate);
      // write16 sends the low byte first; the chip wants the high byte first
      config := SwapBytes(config);
      device.Write16(CONFIG, config);
      SwappedWriteDeliversBigEndian(ConfigWord(samplerate));
      var mid := device.ReadU16BE(MANID);
      var did := device.ReadU16BE(DEVID);
      return Success(mid == MANUFACTURER_ID && did == DEVICE_ID);
    }

    /** Reads CONFIG, clears the mode bits and writes the result back with
        `write16`, without exchanging its bytes. */
    method Sleep()
      requires device.Valid()
      modifies device
      ensures device.Valid()
      ensures var control := SleepWord(old(device.registers[CONFIG]));
        && device.writes == old(device.writes) + [WordWrite(CONFIG, LowByte(control), HighByte(control))]
        && device.registers == old(device.registers)[CONFIG := SwapBytes(control)]
    {
      var control := device.ReadU16BE(CONFIG);
      control := SleepWord(control);
      device.Write16(CONFIG, control);
      WriteStoresSwapped(control);
    }

    /** Reads CONFIG, sets the mode bits and writes the result back with
        `write16`, without exchanging its bytes. */
    method Wake()
      requires device.Valid()
      modifies device
      ensures device.Valid()
      ensures var control := WakeWord(old(device.registers[CONFIG]));
        && device.writes == old(device.writes) + [WordWrite(CONFIG, LowByte(control), HighByte(control))]
        && device.registers == old(device.registers)[CONFIG := SwapBytes(control)]
    {
      var control := device.ReadU16BE(CONFIG);
      control := WakeWord(control);
      device.Write16(CONFIG, control);
      WriteStoresSwapped(control);
    }

    /** The object (thermopile) voltage register, signed and unscaled. */
    method ReadRawVoltage() returns (raw: int)
      requires device.Valid()
      ensures -0x8000 <= raw < 0x8000
      ensures raw == Signed(device.registers[VOBJ])
    {
      raw := device.ReadS16BE(VOBJ);
    }

    /** The die temperature register with its two reserved low bits dropped:
        bits 2-15 of the register, sign-extended, which is the signed register
        value divided by four and rounded down. */
    method ReadRawDieTemperature() returns (t: int)
      requires device.Valid()
      ensures t == Signed(ShiftRightArith2(device.registers[TAMB]))
      ensures 4 * t <= Signed(device.registers[TAMB]) < 4 * t + 4
      ensures -0x2000 <= t < 0x2000
    {
      var raw := device.ReadS16BE(TAMB);
      // Python shifts an integer right by two as floor division by four
      t := raw / 4;
      ShiftRightArith2IsFloorDiv(device.registers[TAMB]);
    }
  }
}
