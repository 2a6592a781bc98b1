/** The FT-857D CAT command table and the pure parts of the driver: the
    name-to-selector lookups behind the setters, the 5-byte frames they
    build, and the decoders that turn reply bytes into values.

    Every CAT command is a block {P1, P2, P3, P4, CMD}: four parameter bytes
    and the command code last. */
module Cat {
  import opened Arith
  import opened Bcd

  // ---------------------------------------------------------------------
  // The command table

  // EEPROM addresses, each as a (high byte, low byte) pair
  const MsbAddVfoStatus: bv8 := 0x00
  const LsbAddVfoStatus: bv8 := 0x68
  const MsbAddCwMtrConf: bv8 := 0x00
  const LsbAddCwMtrConf: bv8 := 0x6B
  const MsbAddAgcDspConf: bv8 := 0x00
  const LsbAddAgcDspConf: bv8 := 0xA8
  const MsbAddSplitStatus: bv8 := 0x00
  const LsbAddSplitStatus: bv8 := 0x8D

  const EepromReadCmd: bv8 := 0xBB

  // command codes
  const LockOn: bv8 := 0x00
  const LockOff: bv8 := 0x80
  const PttOn: bv8 := 0x08
  const PttOff: bv8 := 0x88
  const FreqSet: bv8 := 0x01
  const ModeSet: bv8 := 0x07
  const ClarOn: bv8 := 0x05
  const ClarOff: bv8 := 0x85
  const ClarSet: bv8 := 0xF5
  const VfoAB: bv8 := 0x81
  const SplitOn: bv8 := 0x02
  const SplitOff: bv8 := 0x82
  const RptrOffsetCmd: bv8 := 0x09
  const RptrFreqSet: bv8 := 0xF9
  const SqlCmd: bv8 := 0x0A
  const SqlCtcssSet: bv8 := 0x0B
  const SqlDcsSet: bv8 := 0x0C
  const RxDataCmd: bv8 := 0xE7
  const TxDataCmd: bv8 := 0xF7
  const RxFreqCmd: bv8 := 0x03
  const NullData: bv8 := 0x00

  // P1 of the mode command
  const ModeLsb: bv8 := 0x00
  const ModeUsb: bv8 := 0x01
  const ModeCw: bv8 := 0x02
  const ModeCwr: bv8 := 0x03
  const ModeAm: bv8 := 0x04
  const ModeFm: bv8 := 0x08
  const ModeDig: bv8 := 0x0A
  const ModePkt: bv8 := 0x0C
  const ModeFmn: bv8 := 0x88
  const ModeWfm: bv8 := 0x06

  // P1 of the repeater offset command
  const RptrOffsetN: bv8 := 0x09
  const RptrOffsetP: bv8 := 0x49
  const RptrOffsetS: bv8 := 0x89

  // P1 of the CTCSS / DCS mode command
  const SqlDcs: bv8 := 0x0A
  const SqlDcsDecd: bv8 := 0x0B
  const SqlDcsEncd: bv8 := 0x0C
  const SqlCtcss: bv8 := 0x2A
  const SqlCtcssDecd: bv8 := 0x3A
  const SqlCtcssEncd: bv8 := 0x4A
  const SqlOff: bv8 := 0x8A

  // ---------------------------------------------------------------------
  // Name lookups of the setters, as tables.  The setters themselves test
  // the names one after another; these maps are what those tests amount to.

  /** The operating modes that `setMode` recognises and their P1 codes. */
  const ModeSetCodes: map<string, bv8> := map[
    "LSB" := ModeLsb, "USB" := ModeUsb, "CW" := ModeCw, "CWR" := ModeCwr,
    "AM" := ModeAm, "FM" := ModeFm, "DIG" := ModeDig, "PKT" := ModePkt,
    "FMN" := ModeFmn]

  /** P1 of the mode command for a mode name; an unknown name selects USB. */
  function ModeSetCode(name: string): (r: bv8)
    ensures r in ModeSetCodes.Values
  {
    assert ModeSetCodes["USB"] == ModeUsb;
    if name in ModeSetCodes then ModeSetCodes[name] else ModeUsb
  }

  /** The repeater shift directions that `rptrOffset` recognises. */
  const RptrOffsetCodes: map<string, bv8> := map[
    "-" := RptrOffsetN, "+" := RptrOffsetP, "s" := RptrOffsetS]

  /** P1 of the repeater offset command; anything unknown selects simplex. */
  function RptrOffsetCode(dir: string): (r: bv8)
    ensures r in RptrOffsetCodes.Values
  {
    assert RptrOffsetCodes["s"] == RptrOffsetS;
    if dir in RptrOffsetCodes then RptrOffsetCodes[dir] else RptrOffsetS
  }

  /** The CTCSS / DCS modes that `squelch` recognises. */
  const SquelchCodes: map<string, bv8> := map[
    "DCS" := SqlDcs, "DDC" := SqlDcsDecd, "DEN" := SqlDcsEncd,
    "TSQ" := SqlCtcss, "TDC" := SqlCtcssDecd, "TEN" := SqlCtcssEncd,
    "OFF" := SqlOff]

  /** P1 of the CTCSS / DCS mode command; an unknown name falls back to
      the USB mode code, as the driver does. */
  function SquelchCode(name: string): bv8
  {
    if name in SquelchCodes then SquelchCodes[name] else ModeUsb
  }

  /** The mode lookup as the driver performs it: nine tests one after the
      other, the last matching test deciding. */
  lemma ModeSetCodeByTests(name: string)
    ensures ModeSetCode(name) ==
      if name == "FMN" then ModeFmn else if name == "PKT" then ModePkt
      else if name == "DIG" then ModeDig else if name == "FM" then ModeFm
      else if name == "AM" then ModeAm else if name == "CWR" then ModeCwr
      else if name == "CW" then ModeCw else if name == "USB" then ModeUsb
      else if name == "LSB" then ModeLsb else ModeUsb
  {}

  /** The repeater shift lookup as the driver performs it. */
  lemma RptrOffsetCodeByTests(dir: string)
    ensures RptrOffsetCode(dir) ==
      if dir == "s" then RptrOffsetS else if dir == "+" then RptrOffsetP
      else if dir == "-" then RptrOffsetN else RptrOffsetS
  {}

  /** The squelch lookup as the driver performs it. */
  lemma SquelchCodeByTests(name: string)
    ensures SquelchCode(name) ==
      if name == "OFF" then SqlOff else if name == "TEN" then SqlCtcssEncd
      else if name == "TDC" then SqlCtcssDecd else if name == "TSQ" then SqlCtcss
      else if name == "DEN" then SqlDcsEncd else if name == "DDC" then SqlDcsDecd
      else if name == "DCS" then SqlDcs else ModeUsb
  {}

  /** CMD of `squelchFreq`: "C" sets a CTCSS tone, "D" a DCS code, and any
      other kind leaves the command byte at its initial 0x00. */
  function ToneCmd(kind: string): bv8
  {
    if kind == "C" then SqlCtcssSet else if kind == "D" then SqlDcsSet else 0x00
  }

  // ---------------------------------------------------------------------
  // Frames

  /** A command without parameters, as `singleCmd` sends it. */
  function ToggleFrame(cmd: bv8): seq<bv8>
  {
    [0x00, 0x00, 0x00, 0x00, cmd]
  }

  /** A command whose only parameter is the selector P1. */
  function SelectorFrame(p1: bv8, cmd: bv8): seq<bv8>
  {
    [p1, 0x00, 0x00, 0x00, cmd]
  }

  /** A command whose parameters are an 8-digit BCD number. */
  function BcdFrame(v: nat, cmd: bv8): seq<bv8>
  {
    BcdBe(v, 8) + [cmd]
  }

  /** An EEPROM read of the address (msb, lsb). */
  function EepromReadFrame(msb: bv8, lsb: bv8): seq<bv8>
  {
    [msb, lsb, 0x00, 0x00, EepromReadCmd]
  }

  /** The frame of `squelchFreq` for the parts the driver defines: P1-P2
      are the 4-digit BCD tone or code and CMD is ToneCmd(kind); P3-P4 are
      not defined by the driver. */
  predicate IsToneFrame(frame: seq<bv8>, tone: nat, kind: string)
  {
    |frame| == 5 && frame[..2] == BcdBe(tone, 4) && frame[4] == ToneCmd(kind)
  }

  // ---------------------------------------------------------------------
  // Reply decoders

  /** The mode name `getFreqMode` reports for the mode byte D5.  The names
      are padded to three characters; PKT is reported as 0xFC, and every
      byte not in the table (the set code of PKT, 0x0C, among them) reads
      as "UNK". */
  function ModeName(code: bv8): (r: string)
    ensures r == "UNK" || r == "WFM" || TrimEnd(r) in ModeSetCodes
  {
    if code == 0xFC then "PKT"
    else if code == ModeLsb then "LSB"
    else if code == ModeUsb then "USB"
    else if code == ModeCw then assert TrimEnd("CW ") == "CW"; "CW "
    else if code == ModeFm then assert TrimEnd("FM ") == "FM"; "FM "
    else if code == ModeWfm then "WFM"
    else if code == ModeCwr then "CWR"
    else if code == ModeAm then assert TrimEnd("AM ") == "AM"; "AM "
    else if code == ModeFmn then "FMN"
    else if code == ModeDig then "DIG"
    else "UNK"
  }

  /** The TX status byte reads 0xFF unless the radio transmits. */
  predicate IsTransmitting(reply: bv8)
  {
    reply != 0xFF
  }

  /** The decimal digit character for d < 10. */
  function DigitChar(d: nat): char
    requires d < 10
  {
    (48 + d) as char
  }

  /** The S-meter text for the RX status byte: the low nibble is the
      reading, S0 to S9, then S9+10 dB to S9+60 dB. */
  function SMeterText(reply: bv8): (r: string)
    ensures |r| == 2 || |r| == 5
    ensures r[0] == 'S' && (|r| == 5 <==> Lo(reply) >= 10)
  {
    var level := reply & 0x0F;
    if level < 10 then "S" + [DigitChar(level as nat)]
    else if level == 10 then "S9+10"
    else if level == 11 then "S9+20"
    else if level == 12 then "S9+30"
    else if level == 13 then "S9+40"
    else if level == 14 then "S9+50"
    else if level == 15 then "S9+60"
    else "UNK  "
  }

  /** The VFO `getVFO` reports for the EEPROM byte D1: "a" exactly when D1 is
      0x80, "b" otherwise. */
  function VfoName(d1: bv8): (r: string)
    ensures r == "a" || r == "b"
  {
    if d1 == 0x80 then "a" else "b"
  }

  /** Meter, keyer and break-in configuration (EEPROM 0x006B). */
  datatype CwMtrConf = CwMtrConf(meter: bv8, keyer: bool, breakIn: bool)

  function DecodeCwMtr(d1: bv8): (r: CwMtrConf)
    ensures r.meter < 4
  {
    CwMtrConf(d1 & 0x03, d1 & 0x10 != 0, d1 & 0x20 != 0)
  }

  /** AGC and DSP configuration (EEPROM 0x00A8). */
  datatype AgcDspConf = AgcDspConf(agc: bool, dbf: bool, dnr: bool, dnf: bool)

  function DecodeAgcDsp(d1: bv8): AgcDspConf
  {
    AgcDspConf(d1 & 0x20 != 0, d1 & 0x04 != 0, d1 & 0x02 != 0, d1 & 0x01 != 0)
  }

  /** Split status (EEPROM 0x008D). */
  predicate DecodeSplit(d1: bv8)
  {
    d1 & 0x80 != 0
  }

  // ---------------------------------------------------------------------
  // Reference definitions the decoders are checked against

  /** Bit k of a byte, by arithmetic: bit 0 is the least significant. */
  predicate Bit(b: bv8, k: nat)
    requires k < 8
  {
    (b as int / Pow2(k)) % 2 == 1
  }

  /** Decimal text of a number, most significant digit first. */
  function DecimalText(n: nat): string
  {
    if n < 10 then [DigitChar(n)] else DecimalText(n / 10) + [DigitChar(n % 10)]
  }

  /** S-meter text computed from the level: S-units up to 9, then 10 dB per
      step above S9. */
  function SMeterReference(level: nat): string
  {
    if level < 10 then "S" + DecimalText(level) else "S9+" + DecimalText((level - 9) * 10)
  }

  /** A string without its trailing spaces. */
  function TrimEnd(s: string): (r: string)
    ensures |r| <= |s| && r == s[..|r|]
    ensures r == [] || r[|r| - 1] != ' '
  {
    if |s| > 0 && s[|s| - 1] == ' ' then TrimEnd(s[..|s| - 1]) else s
  }

  // ---------------------------------------------------------------------
  // The table

  /** Each on/off pair differs only in bit 7: off is on with 0x80 set. */
  lemma TogglePairsDifferInBit7()
    ensures LockOff == LockOn | 0x80 && PttOff == PttOn | 0x80
    ensures ClarOff == ClarOn | 0x80 && SplitOff == SplitOn | 0x80
    ensures LockOn & 0x80 == 0 && PttOn & 0x80 == 0 && ClarOn & 0x80 == 0 && SplitOn & 0x80 == 0
  {}

  /** The nine mode names have nine different codes, so the mode command
      tells them apart. */
  lemma ModeSetCodesDistinct(a: string, b: string)
    requires a in ModeSetCodes && b in ModeSetCodes && ModeSetCode(a) == ModeSetCode(b)
    ensures a == b
  {}

  /** The recognised selectors of the repeater and squelch commands are
      pairwise distinct as well. */
  lemma SelectorCodesDistinct(a: string, b: string)
    ensures a in RptrOffsetCodes && b in RptrOffsetCodes && RptrOffsetCode(a) == RptrOffsetCode(b) ==> a == b
    ensures a in SquelchCodes && b in SquelchCodes && SquelchCode(a) == SquelchCode(b) ==> a == b
  {}

  /** Reading back a mode that was set: the name reported for each set code
      is the name that selected it, up to padding, except PKT, whose set
      code 0x0C is not in the read table (the radio reports PKT as 0xFC). */
  lemma ModeReadBack(name: string)
    requires name in ModeSetCodes
    ensures name != "PKT" ==> TrimEnd(ModeName(ModeSetCode(name))) == name
    ensures name == "PKT" ==> ModeName(ModeSetCode(name)) == "UNK" && ModeName(0xFC) == name
  {
    var code := ModeSetCodes[name];
    assert ModeSetCode(name) == code;
    if name == "CW" {
      assert ModeName(code) == "CW ";
      assert TrimEnd("CW ") == TrimEnd("CW") == "CW";
    } else if name == "FM" {
      assert ModeName(code) == "FM ";
      assert TrimEnd("FM ") == TrimEnd("FM") == "FM";
    } else if name == "AM" {
      assert ModeName(code) == "AM ";
      assert TrimEnd("AM ") == TrimEnd("AM") == "AM";
    } else if name != "PKT" {
      assert name == "LSB" || name == "USB" || name == "CWR" || name == "DIG" || name == "FMN";
      assert ModeName(code) == name;
      assert name[|name| - 1] != ' ';
    }
  }

  /** Every reported mode name is three characters wide. */
  lemma ModeNameWidth(code: bv8)
    ensures |ModeName(code)| == 3
  {}

  /** An unrecognised squelch name yields a P1 that is none of the seven
      CTCSS / DCS selectors. */
  lemma SquelchDefaultIsNoSelector(name: string)
    requires name !in SquelchCodes
    ensures SquelchCode(name) == ModeUsb
    ensures forall k :: k in SquelchCodes ==> SquelchCodes[k] != SquelchCode(name)
  {}

  /** An unrecognised tone kind leaves CMD at 0x00, which is the lock-on
      command code. */
  lemma ToneCmdDefaultIsLockOn(kind: string)
    requires kind != "C" && kind != "D"
    ensures ToneCmd(kind) == LockOn
  {}

  // ---------------------------------------------------------------------
  // The decoders against their references

  /** The S-meter text depends only on the low nibble and agrees with the
      arithmetic reference for every reply byte; the "UNK  " branch is never
      taken. */
  lemma SMeterMatchesReference(reply: bv8)
    ensures SMeterText(reply) == SMeterText(reply & 0x0F)
    ensures SMeterText(reply) == SMeterReference(Lo(reply))
    ensures SMeterText(reply) != "UNK  "
  {
    var level := Lo(reply);
    assert (reply & 0x0F) as nat == level;
    if level >= 10 {
      var db := (level - 9) * 10;
      assert DecimalText(db) == [DigitChar(db / 10), '0'];
    }
  }

  /** Different S-meter readings give different texts. */
  lemma SMeterInjective(a: bv8, b: bv8)
    requires Lo(a) != Lo(b)
    ensures SMeterText(a) != SMeterText(b)
  {
    SMeterMatchesReference(a);
    SMeterMatchesReference(b);
    var la, lb := Lo(a), Lo(b);
    if la < 10 && lb < 10 {
      assert SMeterText(a)[1] != SMeterText(b)[1];
    } else if la >= 10 && lb >= 10 {
      assert DecimalText((la - 9) * 10)[0] != DecimalText((lb - 9) * 10)[0];
      assert SMeterText(a)[3] != SMeterText(b)[3];
    } else {
      assert |SMeterText(a)| != |SMeterText(b)|;
    }
  }

  // Each mask of the decoders against the arithmetic bit it stands for,
  // one bit per lemma.

  lemma MaskBit0(d1: bv8)
    ensures (d1 & 0x01 != 0) == Bit(d1, 0)
  {
    assert Pow2(0) == 1;
  }

  lemma MaskBit1(d1: bv8)
    ensures (d1 & 0x02 != 0) == Bit(d1, 1)
  {
    assert Pow2(1) == 2;
  }

  lemma MaskBit2(d1: bv8)
    ensures (d1 & 0x04 != 0) == Bit(d1, 2)
  {
    assert Pow2(2) == 4;
  }

  lemma MaskBit4(d1: bv8)
    ensures (d1 & 0x10 != 0) == Bit(d1, 4)
  {
    assert Pow2(4) == 16;
  }

  lemma MaskBit5(d1: bv8)
    ensures (d1 & 0x20 != 0) == Bit(d1, 5)
  {
    assert Pow2(5) == 32;
  }

  lemma MaskBit7(d1: bv8)
    ensures (d1 & 0x80 != 0) == Bit(d1, 7)
  {
    assert Pow2(7) == 128;
  }

  /** The meter / keyer / break-in decoder reads the bits the radio's EEPROM
      map documents for address 0x006B: meter in bits 0-1, keyer in bit 4,
      break-in in bit 5. */
  lemma CwMtrReadsDocumentedBits(d1: bv8)
    ensures DecodeCwMtr(d1).meter as int == d1 as int % 4
    ensures DecodeCwMtr(d1).keyer == Bit(d1, 4)
    ensures DecodeCwMtr(d1).breakIn == Bit(d1, 5)
  {
    MaskLow2(d1);
    MaskBit4(d1);
    MaskBit5(d1);
  }

  lemma MaskLow2(d1: bv8)
    ensures (d1 & 0x03) as int == d1 as int % 4
  {
    assert d1 & 0x03 == d1 % 4;
  }

  /** The AGC / DSP decoder reads the bits documented for address 0x00A8:
      AGC bit 5, DBF bit 2 (only one of its two bits), DNR bit 1, DNF bit 0. */
  lemma AgcDspReadsDocumentedBits(d1: bv8)
    ensures DecodeAgcDsp(d1).agc == Bit(d1, 5)
    ensures DecodeAgcDsp(d1).dbf == Bit(d1, 2)
    ensures DecodeAgcDsp(d1).dnr == Bit(d1, 1)
    ensures DecodeAgcDsp(d1).dnf == Bit(d1, 0)
  {
    MaskBit0(d1);
    MaskBit1(d1);
    MaskBit2(d1);
    MaskBit5(d1);
  }

  /** The split decoder reads bit 7 of address 0x008D. */
  lemma SplitReadsDocumentedBit(d1: bv8)
    ensures DecodeSplit(d1) == Bit(d1, 7)
  {
    MaskBit7(d1);
  }

  /** `getVFO` follows the code, not the EEPROM map's "bit 0": a byte with
      bit 0 clear other than 0x80 still reads as VFO b. */
  lemma VfoTestIsNotBit0()
    ensures VfoName(0x80) == "a" && VfoName(0x81) == "b"
    ensures !Bit(0x00, 0) && VfoName(0x00) == "b"
  {
    assert Pow2(0) == 1;
  }

  // ---------------------------------------------------------------------
  // Frames carrying numbers

  /** The frequency frame carries the last eight decimal digits of its
      argument: the radio decodes P1-P4 back to f modulo 10^8, and to f
      itself when f has at most eight digits. */
  lemma BcdFrameRoundTrip(v: nat, cmd: bv8)
    ensures |BcdFrame(v, cmd)| == 5 && BcdFrame(v, cmd)[4] == cmd
    ensures IsBcd(BcdFrame(v, cmd)[..4], 8)
    ensures DecodeBcd(BcdFrame(v, cmd)[..4], 8) == v % 100000000
    ensures v < 100000000 ==> DecodeBcd(BcdFrame(v, cmd)[..4], 8) == v
  {
    var s: seq<bv8> := seq(4, _ => 0);
    var e := BcdBe(v, 8);
    assert e == BcdEncoded(s, v, 8) && |e| == 4;
    assert BcdFrame(v, cmd)[..4] == e;
    EncodeDecodeRoundTrip(s, v, 8);
    EncodedFootprint(s, v, 8);
    assert Pow10(8) == 100000000;
  }

  // ---------------------------------------------------------------------
  // The worked examples of the command table

  /** The four parameter bytes of a frequency frame, digit by digit. */
  lemma BcdFrameBytes(v: nat, cmd: bv8)
    ensures BcdFrame(v, cmd) == [Pack(Digit(v, 7), Digit(v, 6)), Pack(Digit(v, 5), Digit(v, 4)),
                                 Pack(Digit(v, 3), Digit(v, 2)), Pack(Digit(v, 1), Digit(v, 0)), cmd]
  {
    var e := BcdBe(v, 8);
    assert |e| == 4;
    assert e[0] == Pack(Digit(v, 7), Digit(v, 6));
    assert e[1] == Pack(Digit(v, 5), Digit(v, 4));
    assert e[2] == Pack(Digit(v, 3), Digit(v, 2));
    assert e[3] == Pack(Digit(v, 1), Digit(v, 0));
  }

  /** A field of eight decimal digits is the frame of the number it spells. */
  lemma FrameOfField(s: seq<bv8>, cmd: bv8)
    requires |s| == 4 && IsBcd(s, 8)
    ensures BcdFrame(DecodeBcd(s, 8), cmd) == s + [cmd]
  {
    var v := DecodeBcd(s, 8);
    DecodeEncodeRoundTrip(s, 8);
    EvenEncodingIgnoresBuffer(s, seq(4, _ => 0), v, 8);
    assert BcdEncoded(s, v, 8)[..4] == s;
  }

  /** 144.390 MHz, in 10 Hz steps, is the frame {0x14, 0x43, 0x90, 0x00, 0x01}. */
  lemma FreqFrameExample()
    ensures BcdFrame(14439000, FreqSet) == [0x14, 0x43, 0x90, 0x00, 0x01]
  {
    var s: seq<bv8> := [0x14, 0x43, 0x90, 0x00];
    assert Hi(s[0]) == 1 && Lo(s[0]) == 4 && Hi(s[1]) == 4 && Lo(s[1]) == 3;
    assert Hi(s[2]) == 9 && Lo(s[2]) == 0 && Hi(s[3]) == 0 && Lo(s[3]) == 0;
    assert DecodeBcd(s, 4) == 1443;
    assert DecodeBcd(s, 8) == 14439000;
    FrameOfField(s, FreqSet);
  }
  /** 14.070 MHz is {0x01, 0x40, 0x70, 0x00, 0x01}: the third byte is 0x70,
      not the 0x07 of the command table's first example. */
  lemma FourteenMhzFrame()
    ensures BcdFrame(1407000, FreqSet) == [0x01, 0x40, 0x70, 0x00, 0x01]
    ensures BcdFrame(1407000, FreqSet) != [0x01, 0x40, 0x07, 0x00, 0x01]
  {
    var s: seq<bv8> := [0x01, 0x40, 0x70, 0x00];
    assert Hi(s[0]) == 0 && Lo(s[0]) == 1 && Hi(s[1]) == 4 && Lo(s[1]) == 0;
    assert Hi(s[2]) == 7 && Lo(s[2]) == 0 && Hi(s[3]) == 0 && Lo(s[3]) == 0;
    assert DecodeBcd(s, 4) == 140;
    assert DecodeBcd(s, 8) == 1407000;
    FrameOfField(s, FreqSet);
    assert BcdFrame(1407000, FreqSet)[2] == 0x70;
  }

  /** A repeater offset of 5.4321 MHz: the driver scales its argument by
      100 before the conversion. */
  lemma RptrFreqFrameExample()
    ensures BcdFrame(54321 * 100, RptrFreqSet) == [0x05, 0x43, 0x21, 0x00, 0xF9]
  {
    var s: seq<bv8> := [0x05, 0x43, 0x21, 0x00];
    assert Hi(s[0]) == 0 && Lo(s[0]) == 5 && Hi(s[1]) == 4 && Lo(s[1]) == 3;
    assert Hi(s[2]) == 2 && Lo(s[2]) == 1 && Hi(s[3]) == 0 && Lo(s[3]) == 0;
    assert DecodeBcd(s, 4) == 543;
    assert DecodeBcd(s, 8) == 5432100;
    FrameOfField(s, RptrFreqSet);
  }

  /** A repeater offset of 0.600 MHz. */
  lemma RptrFreqSmallOffsetExample()
    ensures BcdFrame(6000 * 100, RptrFreqSet) == [0x00, 0x60, 0x00, 0x00, 0xF9]
  {
    var s: seq<bv8> := [0x00, 0x60, 0x00, 0x00];
    assert Hi(s[0]) == 0 && Lo(s[0]) == 0 && Hi(s[1]) == 6 && Lo(s[1]) == 0;
    assert Hi(s[2]) == 0 && Lo(s[2]) == 0 && Hi(s[3]) == 0 && Lo(s[3]) == 0;
    assert DecodeBcd(s, 4) == 60;
    assert DecodeBcd(s, 8) == 600000;
    FrameOfField(s, RptrFreqSet);
  }

  /** A field of four decimal digits is the encoding of the number it spells. */
  lemma ToneOfField(s: seq<bv8>)
    requires |s| == 2 && IsBcd(s, 4)
    ensures BcdBe(DecodeBcd(s, 4), 4) == s
  {
    var v := DecodeBcd(s, 4);
    DecodeEncodeRoundTrip(s, 4);
    EvenEncodingIgnoresBuffer(s, seq(2, _ => 0), v, 4);
    assert BcdEncoded(s, v, 4)[..2] == s;
  }

  /** The TX half of the CTCSS example: 88.5 Hz is {0x08, 0x85}. */
  lemma CtcssToneFieldExample()
    ensures BcdBe(885, 4) == [0x08, 0x85]
  {
    var s: seq<bv8> := [0x08, 0x85];
    assert Hi(s[0]) == 0 && Lo(s[0]) == 8 && Hi(s[1]) == 8 && Lo(s[1]) == 5;
    assert DecodeBcd(s, 4) == 885;
    ToneOfField(s);
  }

  /** The TX half of the DCS example: code 023 is {0x00, 0x23}. */
  lemma DcsCodeFieldExample()
    ensures BcdBe(23, 4) == [0x00, 0x23]
  {
    var s: seq<bv8> := [0x00, 0x23];
    assert Hi(s[0]) == 0 && Lo(s[0]) == 0 && Hi(s[1]) == 2 && Lo(s[1]) == 3;
    assert DecodeBcd(s, 4) == 23;
    ToneOfField(s);
  }

  /** Selector examples: LSB, positive repeater shift, CTCSS on TX and RX. */
  lemma SelectorFrameExamples()
    ensures SelectorFrame(ModeSetCode("LSB"), ModeSet) == [0x00, 0x00, 0x00, 0x00, 0x07]
    ensures SelectorFrame(ModeSetCode("USB"), ModeSet) == [0x01, 0x00, 0x00, 0x00, 0x07]
    ensures SelectorFrame(RptrOffsetCode("+"), RptrOffsetCmd) == [0x49, 0x00, 0x00, 0x00, 0x09]
    ensures SelectorFrame(SquelchCode("TSQ"), SqlCmd) == [0x2A, 0x00, 0x00, 0x00, 0x0A]
  {}

  /** The four EEPROM reads: {0x00, address, 0x00, 0x00, 0xBB}. */
  lemma EepromFrameExamples()
    ensures EepromReadFrame(MsbAddVfoStatus, LsbAddVfoStatus) == [0x00, 0x68, 0x00, 0x00, 0xBB]
    ensures EepromReadFrame(MsbAddCwMtrConf, LsbAddCwMtrConf) == [0x00, 0x6B, 0x00, 0x00, 0xBB]
    ensures EepromReadFrame(MsbAddAgcDspConf, LsbAddAgcDspConf) == [0x00, 0xA8, 0x00, 0x00, 0xBB]
    ensures EepromReadFrame(MsbAddSplitStatus, LsbAddSplitStatus) == [0x00, 0x8D, 0x00, 0x00, 0xBB]
  {}

  /** The reply examples: VFO B, break-in on with keyer off and the SWR
      meter, AGC on with DBF off and DNR, DNF on, split on. */
  lemma ReplyDecodeExamples()
    ensures VfoName(0x81) == "b"
    ensures DecodeCwMtr(0x62) == CwMtrConf(2, false, true)
    ensures DecodeAgcDsp(0x23) == AgcDspConf(true, false, true, true)
    ensures DecodeSplit(0x83)
    ensures ModeName(0x01) == "USB" && ModeName(0x02) == "CW " && ModeName(0xFC) == "PKT"
    ensures ModeName(0x0C) == "UNK"
    ensures SMeterText(0x0C) == "S9+30" && SMeterText(0x05) == "S5"
    ensures !IsTransmitting(0xFF) && IsTransmitting(0x00)
  {}
}
