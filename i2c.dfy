/** The I2C device the driver talks to, seen as a file of 16-bit registers.

    The driver uses three primitives of its bus library: `write16`, which
    sends a 16-bit value to a register as an SMBus word write (low byte on the
    wire first), and `readU16BE` / `readS16BE`, which read a register
    big-endian (the chip sends its high byte first) and hand it over unsigned
    or signed. The chip itself takes the first data byte of a write as the
    high byte of the register. Everything else about the bus (addressing,
    timing, failures) is outside this model.
 */
module I2C {
  import opened Word16

  /** A register address: the command byte of an SMBus transaction. */
  type Register = a: int | 0 <= a < 256

  /** One `write16` transaction: the register and the two data bytes in the
      order they cross the bus. */
  datatype WordWrite = WordWrite(register: Register, first: Byte, second: Byte)

  /** The data bytes `write16` puts on the bus for `value`, in order. */
  function WireOrder(value: Word): (bytes: (Byte, Byte))
    ensures FromBytes(bytes.1, bytes.0) == value
  {
    BytesRoundTrip(value);
    (LowByte(value), HighByte(value))
  }

  /** The register file of the chip, and the log of writes sent to it. */
  class Device {
    var registers: seq<Word>
    var writes: seq<WordWrite>

    ghost predicate Valid()
      reads this
    {
      |registers| == 256
    }

    constructor (initial: seq<Word>)
      requires |initial| == 256
      ensures Valid()
      ensures registers == initial && writes == []
    {
      registers := initial;
      writes := [];
    }

    /** `write16(register, value)`: the low byte goes out first, and the chip
        stores the first byte it receives as the high byte of the register. */
    method Write16(register: Register, value: Word)
      requires Valid()
      modifies this
      ensures Valid()
      ensures writes == old(writes) + [WordWrite(register, LowByte(value), HighByte(value))]
      ensures registers == old(registers)[register := FromBytes(LowByte(value), HighByte(value))]
    {
      var (first, second) := WireOrder(value);
      writes := writes + [WordWrite(register, first, second)];
      registers := registers[register := FromBytes(first, second)];
    }

    /** `readU16BE(register)`: the chip sends the high byte first and the read
        assembles it big-endian, so the caller gets the register as stored. */
    method ReadU16BE(register: Register) returns (value: Word)
      requires Valid()
      ensures value == registers[register]
    {
      var stored := registers[register];
      var first, second := HighByte(stored), LowByte(stored);
      value := FromBytes(first, second);
      BytesRoundTrip(stored);
    }

    /** `readS16BE(register)`: the same read, handed over as a two's-complement
        integer. */
    method ReadS16BE(register: Register) returns (value: int)
      requires Valid()
      ensures -0x8000 <= value < 0x8000
      ensures value == Signed(registers[register])
      ensures value % 0x10000 == Unsigned(registers[register])
    {
      var word := ReadU16BE(register);
      value := Signed(word);
      SignedWrapsToUnsigned(word);
    }
  }
}
