/**
  The byte-level protocol the TMD2772 driver speaks over I2C: register
  indices, the command bit every register access carries, the two-byte
  register-write frames sent at start-up, and the little-endian decoding of
  the six-byte data block.
 */
module Wire {

  datatype Option<T> = None | Some(value: T)

  /** An unsigned byte as it travels on the bus (`char` is unsigned on the target). */
  type Byte = b: int | 0 <= b < 0x100

  /** An unsigned 16-bit channel count. */
  type Word = w: int | 0 <= w < 0x1_0000

  /** Bit 7 of the first byte of every access selects the command register. */
  const COMMAND_BIT: Byte := 0x80

  // Register indices (the low bits of a command byte).
  const ENABLE: Byte := 0x00
  const ATIME: Byte := 0x01
  const PTIME: Byte := 0x02
  const WTIME: Byte := 0x03
  const CONTROL: Byte := 0x0F
  /** Ch0 low data byte; Ch1 and proximity follow it. */
  const C0DATA: Byte := 0x14

  /** Number of bytes in one data read: Ch0, Ch1, proximity, two bytes each. */
  const SAMPLE_LENGTH: nat := 6

  /** The command byte `reg | 0x80` that addresses register `reg`: bit 7 set, the other bits kept. */
  function Command(reg: Byte): (c: Byte)
    ensures c >= COMMAND_BIT
    ensures c % 0x80 == reg % 0x80
  {
    reg % 0x80 + COMMAND_BIT
  }

  /** On 8-bit vectors, OR with the command bit adds 0x80 below 0x80 and changes nothing above. */
  lemma OrCommandBit(b: bv8)
    ensures b | 0x80 == if b < 0x80 then b + 0x80 else b
  {
  }

  /** How the comparisons and the addition used by OrCommandBit read on the integer value. */
  lemma CommandBitAsInt(b: bv8)
    ensures 0 <= b as int < 0x100
    ensures b < 0x80 <==> b as int < 0x80
    ensures b < 0x80 ==> (b + 0x80) as int == b as int + 0x80
  {
  }

  /**
    Setting bit 7 arithmetically is the bitwise OR with the command bit, for
    every byte (each byte is the integer value of exactly one 8-bit vector).
   */
  lemma CommandIsBitwiseOr(b: bv8)
    ensures Command(b as int) == (b | 0x80) as int
  {
    OrCommandBit(b);
    CommandBitAsInt(b);
  }

  /** The register index the program means by a command byte: the inverse of Command on indices below 0x80. */
  function RegisterOf(c: Byte): Byte
  {
    c % 0x80
  }

  lemma CommandAddressesRegister(reg: Byte)
    requires reg < COMMAND_BIT
    ensures Command(reg) == reg + COMMAND_BIT
    ensures RegisterOf(Command(reg)) == reg
  {
  }

  /** One start-up register programming step: register index and value. */
  datatype RegisterWrite = RegisterWrite(reg: Byte, value: Byte)

  /** The start-up configuration, in the order it is written. */
  const CONFIGURATION: seq<RegisterWrite> := [
    RegisterWrite(ENABLE, 0x0F),   // power on, wait, proximity and ALS enabled
    RegisterWrite(ATIME, 0xFF),    // ALS integration time 2.73 ms
    RegisterWrite(PTIME, 0xFF),    // proximity integration time 2.73 ms
    RegisterWrite(WTIME, 0xFF),    // wait time 2.73 ms
    RegisterWrite(CONTROL, 0x20)   // 120 mA LED, proximity on Ch1, gains 1x
  ]

  /** The two bytes written to program one register. */
  function WriteFrame(w: RegisterWrite): seq<Byte>
  {
    [Command(w.reg), w.value]
  }

  /** The (register, value) pair the program means by a two-byte write: the inverse of WriteFrame. */
  function ParseFrame(f: seq<Byte>): Option<RegisterWrite>
  {
    if |f| == 2 && f[0] >= COMMAND_BIT then Some(RegisterWrite(RegisterOf(f[0]), f[1])) else None
  }

  lemma FrameRoundTrip(w: RegisterWrite)
    requires w.reg < COMMAND_BIT
    ensures ParseFrame(WriteFrame(w)) == Some(w)
  {
    CommandAddressesRegister(w.reg);
  }

  lemma ParsedFrameRoundTrip(f: seq<Byte>, w: RegisterWrite)
    requires ParseFrame(f) == Some(w)
    ensures WriteFrame(w) == f
  {
  }

  /** The frames the start-up sequence writes, one per configured register. */
  function ConfigFrames(): (fs: seq<seq<Byte>>)
    ensures |fs| == |CONFIGURATION| == 5
    ensures forall i :: 0 <= i < |fs| ==> |fs[i]| == 2 && ParseFrame(fs[i]) == Some(CONFIGURATION[i])
  {
    seq(|CONFIGURATION|, i requires 0 <= i < |CONFIGURATION| => WriteFrame(CONFIGURATION[i]))
  }

  /** The exact bytes of the start-up sequence. */
  lemma ConfigFramesBytes()
    ensures ConfigFrames() == [[0x80, 0x0F], [0x81, 0xFF], [0x82, 0xFF], [0x83, 0xFF], [0x8F, 0x20]]
  {
  }

  /** Registers are programmed in strictly increasing address order. */
  lemma ConfigInAddressOrder()
    ensures forall i, j :: 0 <= i < j < |CONFIGURATION| ==> CONFIGURATION[i].reg < CONFIGURATION[j].reg
    ensures forall i :: 0 <= i < |ConfigFrames()| ==> ConfigFrames()[i][0] == CONFIGURATION[i].reg + COMMAND_BIT
  {
  }

  /** The one-byte write that selects the data block before a read. */
  function DataSelect(): (f: seq<Byte>)
    ensures f == [0x94]
    ensures |f| == 1 && f[0] >= COMMAND_BIT && RegisterOf(f[0]) == C0DATA
  {
    [Command(C0DATA)]
  }

  /** The 16-bit value of a little-endian byte pair. */
  function Decode16(lo: Byte, hi: Byte): (w: Word)
    ensures w % 0x100 == lo && w / 0x100 == hi
  {
    hi * 256 + lo
  }

  /** The little-endian byte pair of a 16-bit value. */
  function Encode16(w: Word): seq<Byte>
  {
    [w % 0x100, w / 0x100]
  }

  lemma Decode16RoundTrip(w: Word)
    ensures Decode16(Encode16(w)[0], Encode16(w)[1]) == w
  {
  }

  lemma Encode16RoundTrip(lo: Byte, hi: Byte)
    ensures Encode16(Decode16(lo, hi)) == [lo, hi]
  {
  }

  /** The three counts of one data read. */
  datatype Sample = Sample(c0: Word, c1: Word, proximity: Word)

  /** The six bytes the device sends for a sample: Ch0, Ch1, proximity, low byte first. */
  function EncodeSample(s: Sample): (data: seq<Byte>)
    ensures |data| == SAMPLE_LENGTH
  {
    Encode16(s.c0) + Encode16(s.c1) + Encode16(s.proximity)
  }

  /** Byte pairs (0,1), (2,3), (4,5) become Ch0, Ch1 and proximity. */
  function DecodeSample(data: seq<Byte>): (s: Sample)
    requires |data| == SAMPLE_LENGTH
    ensures EncodeSample(s) == data
  {
    Sample(Decode16(data[0], data[1]), Decode16(data[2], data[3]), Decode16(data[4], data[5]))
  }

  lemma SampleRoundTrip(s: Sample)
    ensures DecodeSample(EncodeSample(s)) == s
  {
    Decode16RoundTrip(s.c0);
    Decode16RoundTrip(s.c1);
    Decode16RoundTrip(s.proximity);
  }
}
