# TMP006 driver: register-level model

This project models the integer and bit-level core of the Adafruit Python
driver for the TI TMP006 infrared thermopile sensor (`Adafruit_TMP/TMP006.py`).
It covers the register map and configuration constants, the driver's
`begin`, `sleep` and `wake` operations, and the two raw reads the temperature
conversions start from.

The project has three modules:

- `Word16` (`word16.dfy`) holds 16-bit register words (`bv16`) and their two
  bytes. It also gives the unsigned and two's-complement integers a word
  stands for, defined as a recursive sum of its eight two-bit digits, so
  that bit operations and integer arithmetic can be related. It proves that an arithmetic shift
  right by two of a word is floor division of its signed value by four.
- `I2C` (`i2c.dfy`) holds the device the driver talks to: a `Device` class
  with a file of 256 registers and a log of word writes. It offers the three
  bus primitives the driver uses:
  - `Write16` is an SMBus word write. It sends the low byte first, and the
    chip stores the first data byte as the register's high byte.
  - `ReadU16BE` is a big-endian read and returns the register as stored.
  - `ReadS16BE` is the same read returned as a signed integer.
- `TMP006Driver` (`tmp006.dfy`) holds the driver itself: the constants, the
  configuration word and its decoding, the byte exchange, the sleep and wake
  words, and the `TMP006` class with `Begin`, `Sleep`, `Wake`,
  `ReadRawVoltage` and `ReadRawDieTemperature`.

Byte order. `begin` exchanges the bytes of its configuration word before
calling `write16`, so the register ends up holding the configuration word
itself. `sleep` and `wake` write the word they read back without that
exchange, so the register ends up holding the byte-exchanged sleep or wake
word. The model keeps this behaviour as written.
`SleepWakeAfterBeginLeavesModeOff` states what follows from it: after
`begin`, `sleep` and `wake`, the three mode bits of CONFIG are clear, and
bits 4-6 of the register are set instead. `SleepTwiceAfterBeginToggles`
shows that `sleep` is not idempotent on the chip: a second call exchanges the
bytes back, so CONFIG toggles between two values.

Integers. A value read with `readU16BE` is a 16-bit pattern, so it is
represented as a `bv16`. Python's complement of the mode mask is an
unbounded negative integer, but masking a 16-bit value with it clears exactly
the bits that the `bv16` complement clears. Python's right shift of an integer
is floor division by a power of two. On the signed value of a register this
is the sign-extending shift proved in `ShiftRightArith2IsFloorDiv`.

Two points about the code itself:

- The rate argument of `begin` is a mask for bits 9-11 of CONFIG
  (0x0000, 0x0200, 0x0400, 0x0600, 0x0800). The constant names count
  samples, but no sample count is accepted as an argument. The mask 0 (one
  sample) is accepted.
- Because of the missing byte exchange described above, `sleep` and `wake`
  do not keep the rest of the configuration in place.

## Model

| member | source | states |
|---|---|---|
| Word16.FromBytes | Adafruit_TMP/TMP006.py:89-92 | the word built from a high and a low byte has exactly those bytes |
| Word16.DigitSum | Adafruit_TMP/TMP006.py:95-96 | the integer the lowest k two-bit digits of a register stand for is below 4 to the k |
| Word16.UnsignedDigits | Adafruit_TMP/TMP006.py:95-96 | the unsigned value of a register is the weighted sum of its eight two-bit digits |
| Word16.Unsigned | Adafruit_TMP/TMP006.py:95-96 | the unsigned value of a register read is below 0x10000 |
| Word16.Signed | Adafruit_TMP/TMP006.py:121 | the signed value of a register lies in [-0x8000, 0x8000) and is negative exactly when bit 15 is set |
| Word16.SignedWrapsToUnsigned | Adafruit_TMP/TMP006.py:122 | a signed reading reduced modulo 0x10000 is the unsigned value of the same register, and the two differ by 0x10000 exactly when the unsigned value is at least 0x8000 |
| Word16.ShiftRightArith2 | Adafruit_TMP/TMP006.py:133 | shifting a register's bit pattern right by two with sign extension keeps its sign bit |
| Word16.ShiftRightArith2Digits | Adafruit_TMP/TMP006.py:133 | each two-bit digit of the shifted word is the next digit of the original, and the top digit copies the sign |
| Word16.ShiftRightArith2IsFloorDiv | Adafruit_TMP/TMP006.py:133 | shifting a register right by two with sign extension gives the floor of its signed value divided by four |
| I2C.WireOrder | Adafruit_TMP/TMP006.py:89-91 | the two bytes write16 puts on the wire, with the second taken as the high byte and the first as the low byte, give back the value |
| I2C.Device.Write16 | Adafruit_TMP/TMP006.py:93 | a word write logs the low byte then the high byte, and the register becomes the word with those bytes exchanged; no other register changes |
| I2C.Device.ReadU16BE | Adafruit_TMP/TMP006.py:95-96 | a big-endian read returns the register as stored and changes nothing |
| I2C.Device.ReadS16BE | Adafruit_TMP/TMP006.py:121 | a signed big-endian read returns the two's-complement value of the register, within 16-bit range and congruent to its unsigned value |
| TMP006Driver.IsSampleRate | Adafruit_TMP/TMP006.py:81-82 | `begin` accepts a rate exactly when it is a multiple of 0x0200 from 0x0000 to 0x0800 |
| TMP006Driver.RateMask | Adafruit_TMP/TMP006.py:49-53 | each accepted sample rate is a 16-bit mask whose unsigned value is that rate and which lies inside bits 9-11 |
| TMP006Driver.ConfigWord | Adafruit_TMP/TMP006.py:88 | the configuration has the three mode bits and the data-ready enable set, the rate field equal to the requested mask, reset and data-ready clear, and a zero low byte |
| TMP006Driver.SampleRateOf | Adafruit_TMP/TMP006.py:49-53 | decoding a configuration's rate field yields only one of the five accepted masks |
| TMP006Driver.ConfigWordDecodes | Adafruit_TMP/TMP006.py:81-88 | the rate decoded from the configuration word is the rate it was built from |
| TMP006Driver.ConfigWordOnlyFrom | Adafruit_TMP/TMP006.py:88 | a word with only the mode, data-ready-enable and a valid rate field set is the configuration word of that rate |
| TMP006Driver.ConfigWordInjective | Adafruit_TMP/TMP006.py:88 | two rates give the same configuration word if and only if they are equal |
| TMP006Driver.SwapBytes | Adafruit_TMP/TMP006.py:92 | the exchanged word's high byte is the original's low byte and vice versa |
| TMP006Driver.SwapBytesInvolution | Adafruit_TMP/TMP006.py:92 | exchanging the bytes twice gives the word back |
| TMP006Driver.WriteStoresSwapped | Adafruit_TMP/TMP006.py:105-107 | the register written by write16 holds the written value with its bytes exchanged |
| TMP006Driver.SwappedWriteDeliversBigEndian | Adafruit_TMP/TMP006.py:89-93 | writing the exchanged configuration puts its high byte on the wire first and stores the configuration itself |
| TMP006Driver.SleepWord | Adafruit_TMP/TMP006.py:106 | the sleep word has the three mode bits clear and every other bit as read |
| TMP006Driver.WakeWord | Adafruit_TMP/TMP006.py:113 | the wake word has the three mode bits set and every other bit as read |
| TMP006Driver.SleepWordIdempotent | Adafruit_TMP/TMP006.py:105-107 | clearing the mode bits twice is clearing them once |
| TMP006Driver.WakeWordIdempotent | Adafruit_TMP/TMP006.py:112-114 | setting the mode bits twice is setting them once |
| TMP006Driver.WakeAfterSleep | Adafruit_TMP/TMP006.py:105-114 | waking a slept word sets the mode bits on the original, and restores it when its mode bits were already set |
| TMP006Driver.SleepAfterWake | Adafruit_TMP/TMP006.py:105-114 | sleeping a woken word is sleeping the original |
| TMP006Driver.ConfigAfterSleep | Adafruit_TMP/TMP006.py:92-107 | after `begin` then `sleep`, CONFIG holds the data-ready enable and the rate field moved down eight bits, and nothing else |
| TMP006Driver.ConfigAfterSleepWake | Adafruit_TMP/TMP006.py:92-114 | after a further `wake`, CONFIG holds the data-ready enable and the rate field in place and bits 4-6 set, with the mode bits clear |
| TMP006Driver.SleepTwiceAfterBeginToggles | Adafruit_TMP/TMP006.py:105-107 | a second `sleep` after `begin` and `sleep` exchanges CONFIG's bytes back, so the register changes: `sleep` is not idempotent on the chip |
| TMP006Driver.SleepWakeAfterBeginLeavesModeOff | Adafruit_TMP/TMP006.py:92-114 | after begin then sleep, CONFIG has the mode bits and rate field clear; after a further wake the mode bits are still clear and bits 4-6 are set |
| TMP006Driver.TMP006.Begin | Adafruit_TMP/TMP006.py:74-99 | an unaccepted rate fails with ValueError before any bus traffic; an accepted one sends exactly one write to CONFIG with the high byte first, leaves CONFIG holding the configuration word, and returns whether both ID registers match 0x5449 and 0x0067 |
| TMP006Driver.TMP006.Sleep | Adafruit_TMP/TMP006.py:101-108 | one write is sent to CONFIG carrying the read word with its mode bits cleared, unswapped, and CONFIG then holds that word byte-exchanged |
| TMP006Driver.TMP006.Wake | Adafruit_TMP/TMP006.py:110-115 | one write is sent to CONFIG carrying the read word with its mode bits set, unswapped, and CONFIG then holds that word byte-exchanged |
| TMP006Driver.TMP006.ReadRawVoltage | Adafruit_TMP/TMP006.py:117-124 | the result is the signed value of the object-voltage register, in 16-bit range |
| TMP006Driver.TMP006.ReadRawDieTemperature | Adafruit_TMP/TMP006.py:126-133 | the result is the die-temperature register shifted right by two with sign extension, i.e. the largest t with 4t at or below its signed value, in [-0x2000, 0x2000) |

## Left out

- `readDieTempC` and `readObjTempC` (Adafruit_TMP/TMP006.py:135-162) and the calibration coefficients (lines 27-34): floating-point arithmetic, which is outside this integer and bit-level model.
- The constructor's transport selection and the default address (lines 36-37 and 63-72): the model's driver is given an already-made `Device`; importing the platform I2C library and opening a bus are I/O.
- Logging (lines 68, 85, 97-98, 108, 115, 122-123, 131-132): for an integer rate it has no effect on the driver's state or results. The one input where it does is the float rate described in the TMP006Driver.TMP006.Begin line below.
- Bus failures: the library's I2C calls can raise on a failed transaction. The model's device never fails.
- Chip behaviour beyond storing what is written: the reset bit clearing itself, the data-ready flag, new conversions updating VOBJ and TAMB, and the read-only ID registers are not modelled. Reads see the register file as it stands.
- TMP006Driver.TMP006.Begin: the sample rate is an integer. A float equal to a mask, such as 512.0, passes the membership test on line 81. It then fails with ValueError when the debug message on line 85 formats it as hexadecimal, before any bus traffic. That case is not modelled.
- The example program `examples/simpletest.py` and the packaging script `setup.py`: they are not part of the driver's logic.
