# TMD2772 proximity and ambient-light driver, modelled in Dafny

The program drives a TMD2772 proximity and ambient-light sensor over Linux I2C, at device address 0x39. It does three things:

- It programs five registers. Each is a two-byte write: the register index OR-ed with the command bit 0x80, then a fixed value.
- It selects the data block with the single command byte 0x94 (0x14 | 0x80) and reads six bytes.
- It turns those bytes into three little-endian 16-bit counts (Ch0, Ch1 and proximity). It then estimates luminance from two candidates, `lum1 = (Ch0 - 1.75 Ch1) / CPL` and `lum2 = (0.63 Ch0 - Ch1) / CPL`, where `CPL = 2.73 / 20`.

The model has three modules:

- `Wire` (`wire.dfy`) holds the bytes, the command bit, the configuration frames and the 16-bit decoding.
- `Light` (`light.dfy`) holds the two candidates and the rule that picks one of them or 0.
- `Driver` (`driver.dfy`) holds the program itself. The opened bus device is a class, `I2cFile`, whose state is the list of buffers written so far and the bytes the sensor will deliver next. `Configure`, `Measure` and `Run` are methods that append to that trace, with a two-byte `config` array and a six-byte `data` array, as the C program does.

The luminance rule is modelled as the C code writes it. The first candidate is taken when it is positive and strictly above the second. Failing that, the second is taken when it is positive and strictly above the first. Otherwise the result is 0. This differs from a "both positive, take the larger" reading in two ways, and the model proves both are reachable:

- Equal positive candidates (Ch0 = 75, Ch1 = 37) give 0.
- The second candidate is reported while the first is not positive (Ch0 = 17, Ch1 = 10).

Because `CPL` is a positive constant, each comparison the rule makes has an exact integer form: `lum1 > 0` iff `4 Ch0 > 7 Ch1`, `lum2 > 0` iff `63 Ch0 > 100 Ch1`, and `lum1 > lum2` iff `37 Ch0 > 75 Ch1`. Luminance is computed with exact `real` arithmetic.

The Windows IoT variant of the program in the same repository behaves differently, and the model follows the C program:
- The variant reports the larger candidate only when both are positive, and 0 otherwise (Windows IoT/TMD2772/TMD2772/MainPage.xaml.cs:160-170). The C program gives 0 on a tie, and reports `lum2` even when `lum1` is not positive.
- The variant stops the remaining configuration writes when one throws (Windows IoT/TMD2772/TMD2772/MainPage.xaml.cs:80-93). The C program never checks the return values of `write`, so all five writes are always issued.

## Model

| member | source | states |
|---|---|---|
| Wire.Command | C/TMD2772.c:29 | the command byte for a register has bit 7 set and keeps the register's low seven bits |
| Wire.CommandIsBitwiseOr | C/TMD2772.c:29-56 | for every byte, the command byte equals the bitwise OR of the byte with 0x80, computed on 8-bit vectors |
| Wire.CommandAddressesRegister | C/TMD2772.c:26-29 | for a register index below 0x80, the command byte is the index plus 0x80, and `RegisterOf` recovers the index from it |
| Wire.FrameRoundTrip | C/TMD2772.c:28-31 | `ParseFrame` inverts `WriteFrame`: a two-byte register write for an index below 0x80 parses back to the (register, value) pair it was built from |
| Wire.ParsedFrameRoundTrip | C/TMD2772.c:28-31 | every frame that `ParseFrame` accepts is exactly `WriteFrame` of its parse, so the round trip holds in the other direction too |
| Wire.ConfigFrames | C/TMD2772.c:28-51 | start-up writes exactly five two-byte frames; frame i programs the i-th configured register with its value |
| Wire.ConfigFramesBytes | C/TMD2772.c:28-51 | the start-up frames are 80 0F, 81 FF, 82 FF, 83 FF, 8F 20, in that order |
| Wire.ConfigInAddressOrder | C/TMD2772.c:28-51 | registers are programmed in strictly increasing address order, and each frame starts with its register plus 0x80 |
| Wire.DataSelect | C/TMD2772.c:54-57 | the data-select write is the single byte 0x94, a command byte addressing register 0x14 |
| Wire.Decode16 | C/TMD2772.c:66-68 | the 16-bit value of a byte pair has the low byte as its remainder mod 256 and the high byte as its quotient, and lies in 0..65535 |
| Wire.Decode16RoundTrip | C/TMD2772.c:66-68 | decoding the little-endian encoding of any 16-bit value gives that value back |
| Wire.Encode16RoundTrip | C/TMD2772.c:66-68 | encoding the decoded value of any byte pair gives that byte pair back |
| Wire.DecodeSample | C/TMD2772.c:66-68 | the six bytes are exactly the little-endian encodings of Ch0, Ch1 and proximity, taken from pairs (1,0), (3,2) and (5,4) |
| Wire.SampleRoundTrip | C/TMD2772.c:66-68 | decoding the six-byte encoding of any sample gives that sample back |
| Light.SelectLuminance | C/TMD2772.c:72-81 | the result is never negative and is always the first candidate, the second candidate or 0 |
| Light.SelectLuminanceBranches | C/TMD2772.c:72-81 | the result is positive iff the candidates differ and one is positive; it is the first (positive) candidate iff that candidate is positive and strictly above the second; the same holds for the second; otherwise it is 0 |
| Light.SelectLuminanceReference | C/TMD2772.c:72-81 | the rule equals "the largest of the two candidates and 0, except 0 when the candidates are equal" |
| Light.TieGivesZero | C/TMD2772.c:73-78 | equal candidates give 0, whatever their common value, because both comparisons are strict |
| Light.Luminance | C/TMD2772.c:69-81 | the luminance of any counts is non-negative and is lum1, lum2 or 0 |
| Light.ComparisonsOverIntegers | C/TMD2772.c:69-78 | lum1 > 0 iff 4 Ch0 > 7 Ch1; lum2 > 0 iff 63 Ch0 > 100 Ch1; lum1 > lum2 iff 37 Ch0 > 75 Ch1; the candidates are equal iff 37 Ch0 = 75 Ch1 |
| Light.LuminanceOverIntegers | C/TMD2772.c:69-81 | which candidate is reported, or 0, is decided by those integer comparisons alone |
| Light.Lum1PositiveImpliesLum2Positive | C/TMD2772.c:70-71 | for non-negative counts, a positive lum1 implies a positive lum2 |
| Light.Lum1ReportedOnlyAboveRatio | C/TMD2772.c:70-75 | whenever the result is positive and equal to lum1, 37 Ch0 > 75 Ch1 holds |
| Light.DarkWhenCh1Dominates | C/TMD2772.c:70-81 | when 100 Ch1 >= 63 Ch0, both candidates are at most 0 and the result is 0 |
| Light.DarkExamples | C/TMD2772.c:70-81 | Ch0 = Ch1 = 0, and Ch0 = 10 with Ch1 = 100, give luminance 0 |
| Light.BrightExample | C/TMD2772.c:69-76 | Ch0 = 500 and Ch1 = 100 give two positive candidates; lum1 is reported, and it lies between 2380 and 2382 |
| Light.TieWithPositiveCandidatesIsReachable | C/TMD2772.c:70-81 | some 16-bit counts give equal positive candidates, and the result for them is 0 |
| Light.Lum2ReportedWithLum1NonPositiveIsReachable | C/TMD2772.c:70-81 | some 16-bit counts give lum1 <= 0 < lum2, and the result for them is lum2 |
| Light.LuminanceBound | C/TMD2772.c:66-81 | for 16-bit counts, luminance lies between 0 and lum1(65535, 0) |
| Driver.Convert | C/TMD2772.c:64-81 | the reading's proximity is the little-endian value of bytes 4 and 5; its luminance is non-negative, bounded, and is lum1, lum2 or 0 of the decoded channels |
| Driver.ConvertSample | C/TMD2772.c:66-81 | a data block that encodes a sample converts to that sample's proximity and the luminance of its two channels |
| Driver.DecodeExample | C/TMD2772.c:66-81 | bytes 01 00 02 00 03 00 decode to Ch0 = 1, Ch1 = 2, proximity = 3, with luminance 0 |
| Driver.I2cFile.constructor | C/TMD2772.c:16-24 | an opened device has written nothing yet |
| Driver.I2cFile.Write | C/TMD2772.c:31 | a write appends the first `count` bytes of the buffer to the trace and leaves the sensor's pending bytes alone |
| Driver.I2cFile.Read | C/TMD2772.c:58-59 | a read returns as many bytes as were asked for or as were available, whichever is fewer; it copies them into the front of the buffer, leaves the rest of the buffer unchanged, and consumes them |
| Driver.Configure | C/TMD2772.c:28-51 | programming appends exactly the five configuration frames to the trace, in order, and consumes nothing |
| Driver.Measure | C/TMD2772.c:54-81 | measuring writes the data-select byte 0x94. Fewer than six available bytes gives no reading; otherwise the reading is the conversion of the first six bytes |
| Driver.Run | C/TMD2772.c:28-81 | the program writes the five configuration frames and then the data-select byte, produces a reading exactly when six bytes are available, and consumes the first six pending bytes, or all of them when fewer are available |
| Driver.RunOnSample | C/TMD2772.c:28-81 | a sensor holding the encoding of a sample makes the program report that sample's proximity and the luminance of its two channels |

## Left out

- Opening `/dev/i2c-1`, the failure message and `exit(1)` when that fails, and binding the device to address 0x39 with `ioctl` (C/TMD2772.c:16-24). These are system calls. An `I2cFile` stands for a device that is already open and bound.
- The return values of `write` (C/TMD2772.c:31-57). The program never checks them, so `I2cFile.Write` always appends its buffer. A failed write is not modelled.
- A `read` that fails with -1 (C/TMD2772.c:59). It takes the same branch as a short read. The model represents both as fewer than six bytes being available.
- The one-second `sleep` (C/TMD2772.c:52) and the `printf` output (C/TMD2772.c:20, 61, 84-85).
- IEEE double rounding in `CPL`, `lum1` and `lum2` (C/TMD2772.c:69-71). The model uses exact reals. Rounding could flip a comparison exactly on the boundary where the two candidates are equal.
- The signedness of `char` (C/TMD2772.c:58, 66-68). Bytes are modelled as unsigned, as on the ARM target.
- How the TMD2772 itself decodes a command byte. The source only ORs each register index with 0x80. `RegisterOf` and `ParseFrame` are the inverses of that encoding, not a model of the chip.
- The Windows IoT variant of the program, with its selection rule, exception handling and 300 ms periodic timer. It is not part of this model.
