/**
  The driver program: it programs the sensor once, selects the data block,
  reads six bytes and converts them into a reading. The opened bus device is
  a class whose state is what the program can observe of the bus: the frames
  written so far and the bytes the sensor has ready for the next read.
 */
module Driver {
  import opened Wire
  import opened Light

  /** One measurement: the raw proximity count and the estimated luminance in lux. */
  datatype Reading = Reading(proximity: Word, luminance: real)

  function Min(a: nat, b: nat): nat
  {
    if a < b then a else b
  }

  /** The opened bus device, already bound to the sensor's address. */
  class I2cFile {
    /** Every buffer written to the device, oldest first. */
    var written: seq<seq<Byte>>
    /** The bytes the sensor will deliver to the next reads. */
    var incoming: seq<Byte>

    constructor (incoming: seq<Byte>)
      ensures written == [] && this.incoming == incoming
    {
      written := [];
      this.incoming := incoming;
    }

    /** Sends the first `count` bytes of `buf`. */
    method Write(buf: array<Byte>, count: nat)
      requires count <= buf.Length
      modifies this
      ensures written == old(written) + [buf[..count]]
      ensures incoming == old(incoming)
    {
      written := written + [buf[..count]];
    }

    /** Reads up to `count` bytes into `buf` and returns how many arrived. */
    method Read(buf: array<Byte>, count: nat) returns (n: nat)
      requires count <= buf.Length
      modifies this, buf
      ensures n == Min(count, |old(incoming)|)
      ensures buf[..n] == old(incoming)[..n]
      ensures buf[n..] == old(buf[n..])
      ensures incoming == old(incoming)[n..] && written == old(written)
    {
      n := Min(count, |incoming|);
      forall i | 0 <= i < n {
        buf[i] := incoming[i];
      }
      incoming := incoming[n..];
    }
  }

  /** The conversion of one six-byte data block into a reading. */
  function Convert(data: seq<Byte>): (r: Reading)
    requires |data| == SAMPLE_LENGTH
    ensures Encode16(r.proximity) == data[4..6]
    ensures 0.0 <= r.luminance <= Lum1(0xFFFF, 0)
    ensures var s := DecodeSample(data);
      r.luminance == Lum1(s.c0, s.c1) || r.luminance == Lum2(s.c0, s.c1) || r.luminance == 0.0
  {
    var s := DecodeSample(data);
    LuminanceBound(s.c0, s.c1);
    Reading(s.proximity, Luminance(s.c0, s.c1))
  }

  /** The reading a sensor that returns `s` produces. */
  lemma ConvertSample(s: Sample)
    ensures Convert(EncodeSample(s)) == Reading(s.proximity, Luminance(s.c0, s.c1))
  {
    SampleRoundTrip(s);
  }

  /** The data block 01 00 02 00 03 00 decodes to Ch0 = 1, Ch1 = 2, proximity = 3. */
  lemma DecodeExample()
    ensures DecodeSample([0x01, 0x00, 0x02, 0x00, 0x03, 0x00]) == Sample(1, 2, 3)
    ensures Convert([0x01, 0x00, 0x02, 0x00, 0x03, 0x00]) == Reading(3, 0.0)
  {
  }

  /** Programs the five configuration registers, reusing one two-byte buffer. */
  method Configure(dev: I2cFile)
    modifies dev
    ensures dev.written == old(dev.written) + ConfigFrames()
    ensures dev.incoming == old(dev.incoming)
  {
    ghost var before := dev.written;
    var config := new Byte[2](_ => 0);
    config[0] := Command(ENABLE);
    config[1] := 0x0F;
    assert config[..2] == [0x80, 0x0F];
    dev.Write(config, 2);
    assert dev.written == before + [[0x80, 0x0F]];
    config[0] := Command(ATIME);
    config[1] := 0xFF;
    assert config[..2] == [0x81, 0xFF];
    dev.Write(config, 2);
    assert dev.written == before + [[0x80, 0x0F], [0x81, 0xFF]];
    config[0] := Command(PTIME);
    config[1] := 0xFF;
    assert config[..2] == [0x82, 0xFF];
    dev.Write(config, 2);
    assert dev.written == before + [[0x80, 0x0F], [0x81, 0xFF], [0x82, 0xFF]];
    config[0] := Command(WTIME);
    config[1] := 0xFF;
    assert config[..2] == [0x83, 0xFF];
    dev.Write(config, 2);
    assert dev.written == before + [[0x80, 0x0F], [0x81, 0xFF], [0x82, 0xFF], [0x83, 0xFF]];
    config[0] := Command(CONTROL);
    config[1] := 0x20;
    assert config[..2] == [0x8F, 0x20];
    dev.Write(config, 2);
    assert dev.written == before + [[0x80, 0x0F], [0x81, 0xFF], [0x82, 0xFF], [0x83, 0xFF], [0x8F, 0x20]];
    ConfigFramesBytes();
  }

  /**
    Selects the data block, reads six bytes and converts them. A read that
    delivers fewer than six bytes is the error branch: no reading.
   */
  method Measure(dev: I2cFile) returns (r: Option<Reading>)
    modifies dev
    ensures dev.written == old(dev.written) + [DataSelect()]
    ensures |old(dev.incoming)| < SAMPLE_LENGTH ==> r == None
    ensures |old(dev.incoming)| >= SAMPLE_LENGTH ==> r == Some(Convert(old(dev.incoming)[..SAMPLE_LENGTH]))
    ensures dev.incoming == old(dev.incoming)[Min(SAMPLE_LENGTH, |old(dev.incoming)|)..]
  {
    var reg := new Byte[1](_ => Command(C0DATA));
    assert reg[..1] == DataSelect();
    dev.Write(reg, 1);
    var data := new Byte[SAMPLE_LENGTH](_ => 0);
    var n := dev.Read(data, SAMPLE_LENGTH);
    if n != SAMPLE_LENGTH {
      r := None;
    } else {
      assert data[..] == data[..n];
      r := Some(Convert(data[..]));
    }
  }

  /** The whole program: configure, then take one measurement. */
  method Run(dev: I2cFile) returns (r: Option<Reading>)
    modifies dev
    ensures dev.written == old(dev.written) + ConfigFrames() + [DataSelect()]
    ensures |old(dev.incoming)| < SAMPLE_LENGTH ==> r == None
    ensures |old(dev.incoming)| >= SAMPLE_LENGTH ==> r == Some(Convert(old(dev.incoming)[..SAMPLE_LENGTH]))
    ensures dev.incoming == old(dev.incoming)[Min(SAMPLE_LENGTH, |old(dev.incoming)|)..]
  {
    Configure(dev);
    r := Measure(dev);
  }

  /** A sensor that has a whole sample ready yields exactly that sample's reading. */
  method RunOnSample(s: Sample) returns (r: Option<Reading>)
    ensures r == Some(Reading(s.proximity, Luminance(s.c0, s.c1)))
  {
    var dev := new I2cFile(EncodeSample(s));
    r := Run(dev);
    assert EncodeSample(s)[..SAMPLE_LENGTH] == EncodeSample(s);
    ConvertSample(s);
  }
}
