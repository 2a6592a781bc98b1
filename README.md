# FT-857D CAT driver, modelled in Dafny

This project models the `FT857D` class of the ESP32 driver for the Yaesu
FT-857D's CAT serial protocol. The driver does three things:

- **Packed big-endian BCD codec.** `to_bcd_be` writes the last n decimal
  digits of a number into a byte buffer, two digits per byte, most
  significant first. For odd n it writes only the high nibble of the
  trailing byte. `from_bcd_be` folds the nibbles back into a number as
  `f * 10 + d`.
- **Command frames.** Every command is a 5-byte block `{P1,P2,P3,P4,CMD}`
  with the command code last. The driver fills P1-P4 in one of three ways:
  - with zeros (toggles and status reads);
  - with a selector byte looked up from a name, falling back to a default;
  - with an 8- or 4-digit BCD number.
  It sends the block and then reads the fixed number of reply bytes of that
  command (1, 2 or 5).
- **Reply decoders.** These turn reply bytes into values:
  - the mode byte into a mode name;
  - the TX status byte into transmit / receive;
  - the low nibble of the RX status byte into an S-meter text;
  - EEPROM bytes into the VFO, the meter / keyer / break-in settings, the
    AGC / DSP settings and the split status.

Files:

- `arith.dfy` (module `Arith`): powers of ten and two. It also holds the
  Euclidean division facts that the codec proofs rest on.
- `bcd.dfy` (module `Bcd`): the codec.
  - `ToBcdBe` is the in-place array routine. Its loop runs downwards over
    the buffer.
  - `FromBcdBe` is the accumulator loop.
  - Two functions say what these compute: `BcdEncoded` gives the buffer
    after encoding, and `DecodeBcd` the number read back.
  - Lemmas state the round trips, the bounds, the byte layout and which
    bytes are touched.
- `cat.dfy` (module `Cat`): the parts of the driver that are pure.
  - The constant table of the header.
  - Each setter's name lookup, written out as a map, with a lemma that
    the map gives what the setter's chain of tests gives.
  - The frame shapes.
  - The reply decoders.
  - Independent reference definitions to check the decoders against: bits
    by arithmetic, and S-meter text computed from the level.
  - The worked frame and reply examples of the header comment.
- `ft857d.dfy` (module `Ft857d`): the class `FT857D`, which places the
  serial port in two fields:
  - `written`: every byte sent;
  - `incoming`: the bytes the radio has sent that have not been read.

  The class also has the driver's own fields `mode` and `freq`. Every
  command method:
  - appends exactly its 5-byte frame to `written`;
  - reads 1, 2 or 5 times, removing that many bytes from `incoming`, or all
    of them when fewer are queued;
  - states its result as a function of the bytes it read.

  `Take` and `Drop` give the bytes read and the queue left. A read from an
  empty port returns `idle`, a byte the serial library decides. Arduino's
  `read` returns -1 there, which is `0xFF` as a byte.

Bytes are `bv8`. Numbers are `nat`. Arduino `String` values are Dafny
strings.

## Model

| member | source | states |
|---|---|---|
| Bcd.Hi | FT857D-ESP32/FT857D-ESP32.cpp:542 | the high nibble `b >> 4` of a byte is below 16 |
| Bcd.Lo | FT857D-ESP32/FT857D-ESP32.cpp:544 | the low nibble `b & 0x0f` is below 16 |
| Bcd.Pack | FT857D-ESP32/FT857D-ESP32.cpp:569-573 | the byte built as `low \| high << 4` has exactly those two nibbles |
| Bcd.PackHiLo | FT857D-ESP32/FT857D-ESP32.cpp:540-545 | every byte is the packing of its two nibbles |
| Bcd.Digit | FT857D-ESP32/FT857D-ESP32.cpp:569-572 | the `freq % 10` taken after k divisions by 10 is a decimal digit |
| Bcd.ShiftedIsDiv | FT857D-ESP32/FT857D-ESP32.cpp:569-573 | k divisions by 10 equal one division by 10^k, so digit k of v is (v / 10^k) mod 10 |
| Bcd.Nibble | FT857D-ESP32/FT857D-ESP32.cpp:540-549 | nibbles in reading order (high then low of each byte) are below 16 |
| Bcd.BcdEncoded | FT857D-ESP32/FT857D-ESP32.cpp:557-576 | the buffer `to_bcd_be` leaves: position p of the n-digit field holds digit n-1-p of v, the odd tail keeps its old low nibble, later bytes are unchanged (stated by `EncodedNibble`, `EncodedLayout`, `EncodedFootprint`) |
| Bcd.DecodeBcd | FT857D-ESP32/FT857D-ESP32.cpp:535-551 | the number `from_bcd_be` computes: the f*10+d fold over the first n nibbles, with no check that a nibble is below 10 (related to the positional sum by `DecodeIsPositionalSum`, inverted by the round-trip lemmas) |
| Bcd.ToBcdBe | FT857D-ESP32/FT857D-ESP32.cpp:557-576 | `to_bcd_be` returns the same buffer, and leaves it as BcdEncoded of its old contents: the field holds v's last n digits, and for odd n the trailing low nibble is kept |
| Bcd.DigitPair | FT857D-ESP32/FT857D-ESP32.cpp:569-573 | one turn of the encoder loop packs digits c+1 and c of v and leaves v without its c+2 lowest digits |
| Bcd.FromBcdBe | FT857D-ESP32/FT857D-ESP32.cpp:535-551 | `from_bcd_be` returns DecodeBcd, the fold f*10+d over the first n nibbles, with the odd tail taken from the high nibble of byte n/2 |
| Bcd.EncodedNibble | FT857D-ESP32/FT857D-ESP32.cpp:562-574 | nibble position p of the encoded field holds digit n-1-p of v |
| Bcd.EncodedLayout | FT857D-ESP32/FT857D-ESP32.cpp:568-574 | big-endian layout: byte i holds digits n-1-2i and n-2-2i; for even n, byte n/2-1 holds digits 1 and 0 |
| Bcd.EncodedFootprint | FT857D-ESP32/FT857D-ESP32.cpp:562-574 | encoding keeps the buffer length, writes only decimal digits into the n-nibble field, leaves bytes from (n+1)/2 on unchanged and, for odd n, keeps the low nibble of byte n/2 |
| Bcd.EvenEncodingIgnoresBuffer | FT857D-ESP32/FT857D-ESP32.cpp:568-574 | for even n every byte of the field is overwritten, so the old buffer contents (uninitialised in the setters) do not matter |
| Bcd.DecodeIsPositionalSum | FT857D-ESP32/FT857D-ESP32.cpp:540-549 | the decoder computes the sum of nibble p times 10^(n-1-p), with no validation of the nibbles |
| Bcd.DecodeBound | FT857D-ESP32/FT857D-ESP32.cpp:540-549 | a field whose n nibbles are all at most 9 decodes to less than 10^n |
| Bcd.DigitOfDecode | FT857D-ESP32/FT857D-ESP32.cpp:540-549 | digit k of a decoded well-formed field is the nibble at position m-1-k |
| Bcd.EncodeDecodeRoundTrip | FT857D-ESP32/FT857D-ESP32.cpp:535-576 | from_bcd_be(to_bcd_be(buf, v, n), n) == v mod 10^n, for odd and even n and any earlier buffer contents |
| Bcd.DecodeDigits | FT857D-ESP32/FT857D-ESP32.cpp:535-551 | a field whose position p holds digit n-1-p of v decodes, over its first m positions, to the last m digits of v without its n-m lowest digits |
| Bcd.DecodeEncodeRoundTrip | FT857D-ESP32/FT857D-ESP32.cpp:535-576 | re-encoding the value of a well-formed field rebuilds the buffer byte for byte |
| Cat.TogglePairsDifferInBit7 | FT857D-ESP32/FT857D-ESP32.h:358-379 | off = on \| 0x80, with bit 7 of on clear, for lock, PTT, clarifier and split |
| Cat.ModeSetCodesDistinct | FT857D-ESP32/FT857D-ESP32.h:72-81 | the nine mode names map to nine distinct set codes |
| Cat.SelectorCodesDistinct | FT857D-ESP32/FT857D-ESP32.h:128-160 | the repeater shift selectors and the seven CTCSS / DCS selectors are pairwise distinct |
| Cat.ModeSetCode | FT857D-ESP32/FT857D-ESP32.cpp:94-105 | P1 of `setMode`: a known name's code, USB for any other name; every result is one of the nine mode set codes |
| Cat.RptrOffsetCode | FT857D-ESP32/FT857D-ESP32.cpp:146-151 | P1 of `rptrOffset`: "-", "+" or "s" selects its shift, anything else simplex; every result is one of the three shift codes |
| Cat.SquelchCode | FT857D-ESP32/FT857D-ESP32.cpp:181-190 | P1 of `squelch`: a known name's selector, 0x01 otherwise (the default is none of the selectors, `SquelchDefaultIsNoSelector`) |
| Cat.ToneCmd | FT857D-ESP32/FT857D-ESP32.cpp:199-201 | CMD of `squelchFreq`: 0x0B for "C", 0x0C for "D", and 0x00 for any other kind (`ToneCmdDefaultIsLockOn`) |
| Cat.ModeSetCodeByTests | FT857D-ESP32/FT857D-ESP32.cpp:94-105 | the mode table lookup equals the driver's nine tests run in order, the last matching test deciding, and USB when none matches |
| Cat.RptrOffsetCodeByTests | FT857D-ESP32/FT857D-ESP32.cpp:146-151 | the shift table lookup equals the driver's three tests run in order, simplex when none matches |
| Cat.SquelchCodeByTests | FT857D-ESP32/FT857D-ESP32.cpp:181-190 | the squelch table lookup equals the driver's seven tests run in order, the USB mode code when none matches |
| Cat.ModeName | FT857D-ESP32/FT857D-ESP32.cpp:250-295 | the mode switch of `getFreqMode`: every name it reports is "UNK", "WFM" or, once its padding is trimmed, a name `setMode` accepts |
| Cat.ModeReadBack | FT857D-ESP32/FT857D-ESP32.cpp:250-295 | the read table names each set code with the name that set it, up to padding, except PKT: its set code 0x0C reads "UNK" and the radio reports PKT as 0xFC |
| Cat.ModeNameWidth | FT857D-ESP32/FT857D-ESP32.cpp:250-295 | every mode name reported is three characters wide |
| Cat.SquelchDefaultIsNoSelector | FT857D-ESP32/FT857D-ESP32.cpp:179-194 | an unknown squelch name sends P1 = 0x01 (the USB code), which is none of the seven selectors |
| Cat.ToneCmdDefaultIsLockOn | FT857D-ESP32/FT857D-ESP32.cpp:198-202 | a tone kind other than "C" or "D" leaves CMD at 0x00, the LOCK ON code |
| Cat.SMeterText | FT857D-ESP32/FT857D-ESP32.cpp:343-379 | the S-meter text of the low nibble: it starts with 'S' and is 2 characters wide for S0-S9 and 5 wide exactly for the readings above S9 |
| Cat.IsTransmitting | FT857D-ESP32/FT857D-ESP32.cpp:320-325 | `chkTx`'s test: transmit for every TX status byte except 0xFF (`ReplyDecodeExamples`, `Ft857d.FT857D.ChkTx`) |
| Cat.SMeterMatchesReference | FT857D-ESP32/FT857D-ESP32.cpp:343-379 | the S-meter text depends only on the low nibble, equals "S"+n for n<10 and "S9+"+10(n-9) above, and the "UNK  " branch is unreachable |
| Cat.SMeterInjective | FT857D-ESP32/FT857D-ESP32.cpp:343-379 | different low nibbles give different texts |
| Cat.DecodeCwMtr | FT857D-ESP32/FT857D-ESP32.cpp:424-426 | the meter (D1 & 0x03, always below 4), keyer (0x10) and break-in (0x20) settings of EEPROM 0x006B |
| Cat.CwMtrReadsDocumentedBits | FT857D-ESP32/FT857D-ESP32.cpp:423-426 | the masks take meter = bits 0-1, keyer = bit 4, break-in = bit 5 of D1, as the EEPROM map documents |
| Cat.DecodeAgcDsp | FT857D-ESP32/FT857D-ESP32.cpp:446-449 | the AGC (0x20), DBF (0x04), DNR (0x02) and DNF (0x01) flags of EEPROM 0x00A8 (bits 5, 2, 1, 0 by `AgcDspReadsDocumentedBits`) |
| Cat.AgcDspReadsDocumentedBits | FT857D-ESP32/FT857D-ESP32.cpp:445-449 | AGC = bit 5, DBF = bit 2, DNR = bit 1, DNF = bit 0 of D1 |
| Cat.DecodeSplit | FT857D-ESP32/FT857D-ESP32.cpp:470 | split is on when D1 & 0x80 is set (bit 7 by `SplitReadsDocumentedBit`) |
| Cat.SplitReadsDocumentedBit | FT857D-ESP32/FT857D-ESP32.cpp:469-470 | split = bit 7 of D1 |
| Cat.VfoName | FT857D-ESP32/FT857D-ESP32.cpp:402-404 | the VFO `getVFO` reports is always "a" or "b", "a" only for D1 = 0x80 (`VfoTestIsNotBit0`) |
| Cat.VfoTestIsNotBit0 | FT857D-ESP32/FT857D-ESP32.cpp:400-404 | the VFO test is D1 == 0x80: 0x80 reads "a", while 0x81 and 0x00 (bit 0 clear) both read "b" |
| Cat.BcdFrameRoundTrip | FT857D-ESP32/FT857D-ESP32.cpp:74-87 | the frequency frame has 5 bytes with CMD last. Its P1-P4 are 8 decimal digits that decode to f mod 10^8, and to f itself when f < 10^8 |
| Cat.FrameOfField | FT857D-ESP32/FT857D-ESP32.cpp:74-87 | a 4-byte field of 8 decimal digits, followed by CMD, is the frequency frame of the number it spells |
| Cat.BcdFrameBytes | FT857D-ESP32/FT857D-ESP32.h:58-63 | P1-P4 are the digit pairs aa,bb,cc,dd of f from digit 7 down to digit 0 |
| Cat.FreqFrameExample | FT857D-ESP32/FT857D-ESP32.h:66 | 14439000 (144.390 MHz in 10 Hz steps) gives {0x14,0x43,0x90,0x00,0x01} |
| Cat.FourteenMhzFrame | FT857D-ESP32/FT857D-ESP32.h:65 | 14.070 MHz gives {0x01,0x40,0x70,0x00,0x01}, not the documented {0x01,0x40,0x07,0x00,0x01} |
| Cat.RptrFreqFrameExample | FT857D-ESP32/FT857D-ESP32.h:146 | an offset argument of 54321, scaled by 100, gives {0x05,0x43,0x21,0x00,0xF9} |
| Cat.RptrFreqSmallOffsetExample | FT857D-ESP32/FT857D-ESP32.h:147 | an offset argument of 6000, scaled by 100, gives {0x00,0x60,0x00,0x00,0xF9} |
| Cat.CtcssToneFieldExample | FT857D-ESP32/FT857D-ESP32.h:172 | tone 885 (88.5 Hz) gives P1-P2 {0x08,0x85} |
| Cat.DcsCodeFieldExample | FT857D-ESP32/FT857D-ESP32.h:183 | DCS code 23 gives P1-P2 {0x00,0x23} |
| Cat.ToneOfField | FT857D-ESP32/FT857D-ESP32.cpp:202-203 | a 2-byte field of 4 decimal digits is the 4-digit encoding of the number it spells |
| Cat.SelectorFrameExamples | FT857D-ESP32/FT857D-ESP32.h:83-162 | LSB, USB, "+" shift and TSQ give the documented selector frames |
| Cat.EepromFrameExamples | FT857D-ESP32/FT857D-ESP32.h:243-316 | the four EEPROM reads are {0x00, addr, 0x00, 0x00, 0xBB} with addr 0x68, 0x6B, 0xA8, 0x8D |
| Cat.ReplyDecodeExamples | FT857D-ESP32/FT857D-ESP32.h:258-332 | D1 = 0x81 reads VFO b; 0x62 reads SWR meter, keyer off, break-in on; 0x23 reads AGC on, DBF off, DNR on, DNF on; 0x83 reads split on; plus mode-name, S-meter and TX-status cases |
| Ft857d.Take | FT857D-ESP32/FT857D-ESP32.cpp:488-495 | k reads from the queue return k bytes: the queued ones in order, then `idle` for each read past the end |
| Ft857d.Drop | FT857D-ESP32/FT857D-ESP32.cpp:242-248 | the queue after k reads: k bytes shorter, or empty when fewer than k were queued |
| Ft857d.TakeDropSplit | FT857D-ESP32/FT857D-ESP32.cpp:488-495 | the bytes read and the queue left make up the incoming queue, and reads past its end give the idle byte |
| Ft857d.TakeConcat | FT857D-ESP32/FT857D-ESP32.cpp:242-248 | k1 reads followed by k2 reads are k1+k2 reads |
| Ft857d.ReadStep | FT857D-ESP32/FT857D-ESP32.cpp:242-248 | read j+1 of a run of k reads returns byte j of the first k bytes, and leaves the queue one byte shorter |
| Ft857d.FreqModeReplyRoundTrip | FT857D-ESP32/FT857D-ESP32.cpp:226-299 | a reply made of a frequency frame's four BCD bytes plus a mode byte reads back as that frequency (below 10^8) and that byte's mode name, and consumes exactly five bytes |
| Ft857d.SilentRadio | FT857D-ESP32/FT857D-ESP32.cpp:488-495 | when the radio sends nothing and an empty read gives 0xFF: chkTx reports receive, getVFO reports b, the S-meter reads S9+60 and the mode reads "UNK". The frequency decodes to 166666665, which is no 8-digit value |
| Ft857d.FT857D.constructor | FT857D-ESP32/FT857D-ESP32.cpp:37 | a new driver has sent nothing and holds the radio's pending replies |
| Ft857d.FT857D.SendCmd | FT857D-ESP32/FT857D-ESP32.cpp:501-507 | appends the first len bytes of the array to the output, in array order |
| Ft857d.FT857D.GetByte | FT857D-ESP32/FT857D-ESP32.cpp:488-495 | returns the head of the incoming queue and removes it, or returns the idle byte when the queue is empty |
| Ft857d.FT857D.SingleCmd | FT857D-ESP32/FT857D-ESP32.cpp:513-518 | sends {0,0,0,0,cmd} and returns the single reply byte |
| Ft857d.FT857D.Lock | FT857D-ESP32/FT857D-ESP32.cpp:58-61 | sends the lock-on or lock-off toggle frame and consumes one byte |
| Ft857d.FT857D.Ptt | FT857D-ESP32/FT857D-ESP32.cpp:66-69 | sends the PTT-on or PTT-off toggle frame and consumes one byte |
| Ft857d.FT857D.Clar | FT857D-ESP32/FT857D-ESP32.cpp:114-117 | sends the clarifier on / off toggle frame and consumes one byte |
| Ft857d.FT857D.SwitchVfo | FT857D-ESP32/FT857D-ESP32.cpp:129-131 | sends {0,0,0,0,0x81} and consumes one byte |
| Ft857d.FT857D.Split | FT857D-ESP32/FT857D-ESP32.cpp:136-139 | sends the split on / off toggle frame and consumes one byte |
| Ft857d.FT857D.SetFreq | FT857D-ESP32/FT857D-ESP32.cpp:74-87 | sends BcdFrame(f, 0x01): the 8-digit BCD of f in P1-P4, whatever the uninitialised temporary held. Consumes one byte |
| Ft857d.FT857D.SetMode | FT857D-ESP32/FT857D-ESP32.cpp:92-109 | sends {code,0,0,0,0x07}, with the code from the nine-name table, USB for any other name. Consumes one byte |
| Ft857d.FT857D.RptrOffset | FT857D-ESP32/FT857D-ESP32.cpp:144-155 | sends {sel,0,0,0,0x09}, with "-" → 0x09, "+" → 0x49 and anything else → simplex 0x89. Consumes one byte |
| Ft857d.FT857D.RptrOffsetFreq | FT857D-ESP32/FT857D-ESP32.cpp:159-174 | sends BcdFrame(f*100, 0xF9) and consumes one byte |
| Ft857d.FT857D.Squelch | FT857D-ESP32/FT857D-ESP32.cpp:179-194 | sends {sel,0,0,0,0x0A}, with sel from the seven-name table, 0x01 for any other name. Consumes one byte |
| Ft857d.FT857D.SquelchFreq | FT857D-ESP32/FT857D-ESP32.cpp:198-211 | appends five bytes: P1-P2 are the 4-digit BCD of the tone and CMD is 0x0B for "C", 0x0C for "D", 0x00 otherwise. Consumes one byte |
| Ft857d.FT857D.GetFreqMode | FT857D-ESP32/FT857D-ESP32.cpp:226-299 | sends {0,0,0,0,0x03} and reads five bytes. Sets freq to the BCD value of the first four and mode to the name of the fifth, and returns freq |
| Ft857d.FT857D.GetMode | FT857D-ESP32/FT857D-ESP32.cpp:216-219 | runs getFreqMode and returns the mode it stored |
| Ft857d.FT857D.ChkTx | FT857D-ESP32/FT857D-ESP32.cpp:312-326 | sends {0,0,0,0,0xF7}, reads one byte and returns false exactly when it is 0xFF |
| Ft857d.FT857D.GetSMeter | FT857D-ESP32/FT857D-ESP32.cpp:333-382 | sends {0,0,0,0,0xE7}, reads one byte and returns its S-meter text |
| Ft857d.FT857D.GetVfo | FT857D-ESP32/FT857D-ESP32.cpp:390-408 | sends the EEPROM read of 0x0068, reads two bytes and returns "a" exactly when the first is 0x80 |
| Ft857d.FT857D.GetCwMtrConf | FT857D-ESP32/FT857D-ESP32.cpp:415-430 | sends the EEPROM read of 0x006B, reads two bytes and decodes the first with the masks 0x03 / 0x10 / 0x20 |
| Ft857d.FT857D.GetAgcDspConf | FT857D-ESP32/FT857D-ESP32.cpp:437-453 | sends the EEPROM read of 0x00A8, reads two bytes and decodes the first with the masks 0x20 / 0x04 / 0x02 / 0x01 |
| Ft857d.FT857D.GetSplitStatus | FT857D-ESP32/FT857D-ESP32.cpp:460-475 | sends the EEPROM read of 0x008D, reads two bytes and returns bit 7 of the first |

## Left out

- `begin` and the `HardwareSerial rigCat` port (FT857D-ESP32.cpp:33, 51-53): hardware set-up. The port is the pair of fields `written` / `incoming`.
- The `millis()` waits in `getByte` and `getFreqMode` (FT857D-ESP32.cpp:238-240, 490-492): wall-clock timing is not modelled. A byte either is in `incoming` or never arrives, and a read then returns the constructor's `idle` byte.
- `comError`, `flushRX` and `sendByte` (FT857D-ESP32.cpp:480-483, 523-529): thin wrappers over the serial library that no modelled operation calls.
- `clarFreq` (FT857D-ESP32.cpp:122-124): an empty stub with nothing to model.
- The `converted` and `tempWord` members (FT857D-ESP32.h:431-433): `setFreq` and `rptrOffsetFreq` declare a local `tempWord` that shadows the member (FT857D-ESP32.cpp:78, 165), but assign the member `converted` (FT857D-ESP32.cpp:79, 166), which is left pointing at that dead local array. Nothing reads `converted` afterwards, so no behaviour is lost. The model does not keep the member: the array that `ToBcdBe` returns is held in a local.
- The delay constant `dlyTime` (FT857D-ESP32.cpp:35): it is never used.
- Ft857d.FT857D.SquelchFreq: bytes P3-P4 are not specified. The copy loop reads `freq_bcd[2]` and `freq_bcd[3]` past the end of a 2-byte array, which is undefined in C. The model gives those two iterations unspecified bytes.
- Ft857d.FT857D.SetFreq: requires `f < 2^31`, the non-negative range of the `long` parameter. Negative frequencies and their conversion to `unsigned long` are not modelled.
- Ft857d.FT857D.RptrOffsetFreq: requires `f * 100 < 2^31`, so `freq * 100` does not overflow a `long` (undefined in C). Negative offsets are not modelled.
- Ft857d.FT857D.SquelchFreq: requires `tone < 2^32`, the range of its `unsigned int` parameter.
- Bcd.ToBcdBe, Bcd.FromBcdBe: numbers are unbounded. `from_bcd_be` accumulates in a `long`. For the 8-digit fields the driver uses, the largest value, 166666665 (every nibble 15), fits.
- The initial value of the `mode` and `freq` fields: the C++ constructor leaves `freq` unset. The model starts both at empty / zero, and every query that reads them sets them first.
- The Arduino `String` class: mode names, VFO names and S-meter texts are plain Dafny strings.
- Each command leaves the frame array it built in a fresh local array. The model does not track those arrays after `SendCmd` has copied their contents.

## Notes on the source

- **14.070 MHz example.** FT857D-ESP32.h:65 documents 14.070 MHz as `{0x01,0x40,0x07,0x00,0x01}`. The encoder gives `{0x01,0x40,0x70,0x00,0x01}`, and `Cat.FourteenMhzFrame` proves this. The model follows the code. The 144.390 MHz example on the next line agrees with the code.
- **VFO status.** The EEPROM map (FT857D-ESP32.h:252) says bit 0 of D1 selects the VFO. `getVFO` instead tests `D1 == 0x80` (FT857D-ESP32.cpp:402), and the model follows the code (`Cat.VfoTestIsNotBit0`). The documented example reply 0x81 reads "b" either way.
- **TX status.** The header documents PTT as bit 7 of the TX status byte (FT857D-ESP32.h:217-218). `chkTx` reports transmit for every byte other than 0xFF, and the model follows the code.
- **Squelch default.** An unknown squelch name sends P1 = 0x01, the USB mode code (FT857D-ESP32.cpp:181). An unknown tone kind sends CMD 0x00, the lock-on code (FT857D-ESP32.cpp:199-201). Both are modelled as written.
- **PKT mode byte.** PKT is set with 0x0C but read back as 0xFC (FT857D-ESP32.cpp:252). The read table maps 0x0C to "UNK" (`Cat.ModeReadBack`).
