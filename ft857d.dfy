/** The driver object.  The serial port to the radio is modelled by two
    sequences: `written`, every byte sent so far, oldest first, and
    `incoming`, the bytes the radio has sent that have not been read yet.
    Every command sends one 5-byte frame and then reads the fixed number of
    reply bytes its command defines (1, 2 or 5). */
module Ft857d {
  import opened Arith
  import opened Bcd
  import opened Cat

  /** The bytes that k reads return from the queue q, in order.  A read on
      a port with nothing to deliver returns what the serial library returns
      then, kept in a byte: `idle`.  (Arduino's `read` returns -1 there,
      which is 0xFF as a byte.) */
  function Take(q: seq<bv8>, k: nat, idle: bv8): (r: seq<bv8>)
    ensures |r| == k
  {
    if k <= |q| then q[..k] else q + seq(k - |q|, _ => idle)
  }

  /** The queue left after k reads from q; reads past its end leave it empty. */
  function Drop(q: seq<bv8>, k: nat): (r: seq<bv8>)
    ensures |r| == if k <= |q| then |q| - k else 0
  {
    if k <= |q| then q[k..] else []
  }

  /** Reading never loses or reorders a byte the radio sent: what was read
      and what is left make up the queue, and reads past its end give idle. */
  lemma TakeDropSplit(q: seq<bv8>, k: nat, idle: bv8)
    ensures k <= |q| ==> Take(q, k, idle) + Drop(q, k) == q
    ensures |q| <= k ==> Take(q, k, idle)[..|q|] == q && Drop(q, k) == []
    ensures forall i :: |q| <= i < k ==> Take(q, k, idle)[i] == idle
  {
  }

  /** k1 reads followed by k2 reads are k1 + k2 reads. */
  lemma TakeConcat(q: seq<bv8>, k1: nat, k2: nat, idle: bv8)
    ensures Take(q, k1 + k2, idle) == Take(q, k1, idle) + Take(Drop(q, k1), k2, idle)
    ensures Drop(q, k1 + k2) == Drop(Drop(q, k1), k2)
  {
    if k1 + k2 <= |q| {
      assert q[..k1 + k2] == q[..k1] + q[k1..][..k2];
    } else if k1 <= |q| {
      assert q[k1..] + seq(k2 - |q[k1..]|, _ => idle) == q[k1..] + seq(k1 + k2 - |q|, _ => idle);
      assert q == q[..k1] + q[k1..];
    } else {
      assert seq(k1 + k2 - |q|, _ => idle) == seq(k1 - |q|, _ => idle) + seq(k2, _ => idle);
    }
  }

  /** Read number j + 1 of k returns byte j of the first k bytes, and leaves
      the queue j + 1 bytes shorter. */
  lemma ReadStep(q: seq<bv8>, j: nat, k: nat, idle: bv8)
    requires j < k
    ensures Take(Drop(q, j), 1, idle)[0] == Take(q, k, idle)[j]
    ensures Drop(Drop(q, j), 1) == Drop(q, j + 1)
  {
    if j < |q| {
      assert Drop(q, j)[0] == q[j];
    }
  }

  /** What `getFreqMode` reports when the radio answers with the frequency
      frame's four BCD bytes followed by a mode byte: the frequency that was
      set, when it has at most eight digits, and the name of that mode byte. */
  lemma FreqModeReplyRoundTrip(f: nat, code: bv8, rest: seq<bv8>, idle: bv8)
    requires f < 100000000
    ensures DecodeBcd(Take(BcdBe(f, 8) + [code] + rest, 4, idle), 8) == f
    ensures ModeName(Take(BcdBe(f, 8) + [code] + rest, 5, idle)[4]) == ModeName(code)
    ensures Drop(BcdBe(f, 8) + [code] + rest, 5) == rest
  {
    var q := BcdBe(f, 8) + [code] + rest;
    assert Take(q, 4, idle) == BcdFrame(f, FreqSet)[..4];
    BcdFrameRoundTrip(f, FreqSet);
  }

  /** A radio that sends nothing, on a port whose empty reads give 0xFF:
      `chkTx` reports receive, `getVFO` reports VFO b, the S-meter reads
      S9+60, the mode reads "UNK" and the frequency decodes every nibble as
      15, a value no 8-digit BCD field can hold. */
  lemma SilentRadio()
    ensures Take([], 5, 0xFF) == [0xFF, 0xFF, 0xFF, 0xFF, 0xFF]
    ensures !IsTransmitting(Take([], 1, 0xFF)[0])
    ensures VfoName(Take([], 1, 0xFF)[0]) == "b"
    ensures SMeterText(Take([], 1, 0xFF)[0]) == "S9+60"
    ensures ModeName(Take([], 5, 0xFF)[4]) == "UNK"
    ensures DecodeBcd(Take([], 4, 0xFF), 8) == 166666665 && 166666665 >= Pow10(8)
  {
    var q := Take([], 4, 0xFF);
    assert q == [0xFF, 0xFF, 0xFF, 0xFF];
    assert Hi(0xFF) == 15 && Lo(0xFF) == 15;
    assert DecodeBcd(q, 0) == 0;
    assert DecodeBcd(q, 1) == 15;
    assert DecodeBcd(q, 2) == 165;
    assert DecodeBcd(q, 3) == 1665;
    assert DecodeBcd(q, 4) == 16665;
    assert DecodeBcd(q, 5) == 166665;
    assert DecodeBcd(q, 6) == 1666665;
    assert DecodeBcd(q, 7) == 16666665;
  }

  class FT857D {
    var written: seq<bv8>
    var incoming: seq<bv8>
    /** The mode name of the last `getFreqMode`. */
    var mode: string
    /** The frequency of the last `getFreqMode`, in 10 Hz steps. */
    var freq: nat
    /** The byte a read returns when nothing has arrived. */
    const idle: bv8

    /** A driver on a port whose radio will send `replies` and whose empty
        reads return `idle`. */
    constructor (replies: seq<bv8>, idle: bv8)
      ensures written == [] && incoming == replies && this.idle == idle
      ensures mode == "" && freq == 0
    {
      this.idle := idle;
      written, incoming := [], replies;
      mode, freq := "", 0;
    }

    // -------------------------------------------------------------------
    // Transport

    /** `sendCmd`: writes the first len bytes of cmd, in order. */
    method SendCmd(cmd: array<bv8>, len: nat)
      requires len <= cmd.Length
      modifies this`written
      ensures written == old(written) + cmd[..len]
    {
      for i := 0 to len
        invariant written == old(written) + cmd[..i]
      {
        assert cmd[..i + 1] == cmd[..i] + [cmd[i]];
        written := written + [cmd[i]];
      }
    }

    /** `getByte`: the next byte from the radio, or `idle` when none has
        come (the timed wait for it is not modelled). */
    method GetByte() returns (b: bv8)
      modifies this`incoming
      ensures b == Take(old(incoming), 1, idle)[0] && incoming == Drop(old(incoming), 1)
    {
      if |incoming| > 0 {
        b := incoming[0];
        incoming := incoming[1..];
      } else {
        b := idle;
      }
    }

    /** `singleCmd`: a command without parameters, with its 1-byte reply. */
    method SingleCmd(cmd: bv8) returns (reply: bv8)
      modifies this`written, this`incoming
      ensures written == old(written) + ToggleFrame(cmd)
      ensures reply == Take(old(incoming), 1, idle)[0] && incoming == Drop(old(incoming), 1)
    {
      var outByte := new bv8[5](_ => 0x00);
      outByte[4] := cmd;
      SendCmd(outByte, 5);
      reply := GetByte();
    }

    // -------------------------------------------------------------------
    // Toggles

    method Lock(toggle: bool)
      modifies this`written, this`incoming
      ensures written == old(written) + ToggleFrame(if toggle then LockOn else LockOff)
      ensures incoming == Drop(old(incoming), 1)
    {
      var reply: bv8;
      if toggle == true { reply := SingleCmd(LockOn); }
      if toggle == false { reply := SingleCmd(LockOff); }
    }

    method Ptt(toggle: bool)
      modifies this`written, this`incoming
      ensures written == old(written) + ToggleFrame(if toggle then PttOn else PttOff)
      ensures incoming == Drop(old(incoming), 1)
    {
      var reply: bv8;
      if toggle == true { reply := SingleCmd(PttOn); }
      if toggle == false { reply := SingleCmd(PttOff); }
    }

    method Clar(toggle: bool)
      modifies this`written, this`incoming
      ensures written == old(written) + ToggleFrame(if toggle then ClarOn else ClarOff)
      ensures incoming == Drop(old(incoming), 1)
    {
      var reply: bv8;
      if toggle == true { reply := SingleCmd(ClarOn); }
      if toggle == false { reply := SingleCmd(ClarOff); }
    }

    method SwitchVfo()
      modifies this`written, this`incoming
      ensures written == old(written) + ToggleFrame(VfoAB)
      ensures incoming == Drop(old(incoming), 1)
    {
      var reply := SingleCmd(VfoAB);
    }

    method Split(toggle: bool)
      modifies this`written, this`incoming
      ensures written == old(written) + ToggleFrame(if toggle then SplitOn else SplitOff)
      ensures incoming == Drop(old(incoming), 1)
    {
      var reply: bv8;
      if toggle == true { reply := SingleCmd(SplitOn); }
      if toggle == false { reply := SingleCmd(SplitOff); }
    }

    // -------------------------------------------------------------------
    // Setters with parameters

    /** `setFreq`: tunes to f, in 10 Hz steps, sent as 8 BCD digits. */
    method SetFreq(f: nat)
      requires f < 0x8000_0000
      modifies this`written, this`incoming
      ensures written == old(written) + BcdFrame(f, FreqSet)
      ensures incoming == Drop(old(incoming), 1)
    {
      var rigFreq := new bv8[5](_ => 0x00);
      rigFreq[4] := FreqSet;
      var tempWord := new bv8[4];
      ghost var garbage := tempWord[..];
      var converted := ToBcdBe(tempWord, f, 8);
      EvenEncodingIgnoresBuffer(garbage, seq(4, _ => 0), f, 8);
      for i := 0 to 4
        modifies rigFreq
        invariant rigFreq[..i] == converted[..i] && rigFreq[4] == FreqSet
      {
        rigFreq[i] := converted[i];
      }
      assert rigFreq[..5] == converted[..4] + [FreqSet];
      SendCmd(rigFreq, 5);
      var reply := GetByte();
    }

    /** `setMode`: the mode command with the P1 code of the named mode; an
        unrecognised name selects USB. */
    method SetMode(name: string)
      modifies this`written, this`incoming
      ensures written == old(written) + SelectorFrame(ModeSetCode(name), ModeSet)
      ensures incoming == Drop(old(incoming), 1)
    {
      var rigMode := new bv8[5](_ => 0x00);
      rigMode[0] := ModeUsb;
      rigMode[4] := ModeSet;
      if name == "LSB" { rigMode[0] := ModeLsb; }
      if name == "USB" { rigMode[0] := ModeUsb; }
      if name == "CW" { rigMode[0] := ModeCw; }
      if name == "CWR" { rigMode[0] := ModeCwr; }
      if name == "AM" { rigMode[0] := ModeAm; }
      if name == "FM" { rigMode[0] := ModeFm; }
      if name == "DIG" { rigMode[0] := ModeDig; }
      if name == "PKT" { rigMode[0] := ModePkt; }
      if name == "FMN" { rigMode[0] := ModeFmn; }
      ModeSetCodeByTests(name);
      assert rigMode[0] == ModeSetCode(name);
      assert rigMode[..5] == SelectorFrame(ModeSetCode(name), ModeSet);
      SendCmd(rigMode, 5);
      var reply := GetByte();
    }

    /** `rptrOffset`: "-" and "+" select negative and positive shift,
        anything else simplex. */
    method RptrOffset(dir: string)
      modifies this`written, this`incoming
      ensures written == old(written) + SelectorFrame(RptrOffsetCode(dir), RptrOffsetCmd)
      ensures incoming == Drop(old(incoming), 1)
    {
      var rigOfst := new bv8[5](_ => 0x00);
      rigOfst[0] := RptrOffsetS;
      rigOfst[4] := RptrOffsetCmd;
      if dir == "-" { rigOfst[0] := RptrOffsetN; }
      if dir == "+" { rigOfst[0] := RptrOffsetP; }
      if dir == "s" { rigOfst[0] := RptrOffsetS; }
      RptrOffsetCodeByTests(dir);
      assert rigOfst[0] == RptrOffsetCode(dir);
      assert rigOfst[..5] == SelectorFrame(RptrOffsetCode(dir), RptrOffsetCmd);
      SendCmd(rigOfst, 5);
      var reply := GetByte();
    }

    /** `rptrOffsetFreq`: the offset f, in kHz, scaled by 100 and sent as 8
        BCD digits. */
    method RptrOffsetFreq(f: nat)
      requires f * 100 < 0x8000_0000
      modifies this`written, this`incoming
      ensures written == old(written) + BcdFrame(f * 100, RptrFreqSet)
      ensures incoming == Drop(old(incoming), 1)
    {
      var offsetFreq := new bv8[5](_ => 0x00);
      offsetFreq[4] := RptrFreqSet;
      var scaled := f * 100;
      var tempWord := new bv8[4];
      ghost var garbage := tempWord[..];
      var converted := ToBcdBe(tempWord, scaled, 8);
      EvenEncodingIgnoresBuffer(garbage, seq(4, _ => 0), scaled, 8);
      for i := 0 to 4
        modifies offsetFreq
        invariant offsetFreq[..i] == converted[..i] && offsetFreq[4] == RptrFreqSet
      {
        offsetFreq[i] := converted[i];
      }
      assert offsetFreq[..5] == converted[..4] + [RptrFreqSet];
      SendCmd(offsetFreq, 5);
      var reply := GetByte();
    }

    /** `squelch`: the CTCSS / DCS mode command with the P1 of the named
        setting; an unrecognised name sends the USB mode code. */
    method Squelch(name: string)
      modifies this`written, this`incoming
      ensures written == old(written) + SelectorFrame(SquelchCode(name), SqlCmd)
      ensures incoming == Drop(old(incoming), 1)
    {
      var rigSql := new bv8[5](_ => 0x00);
      rigSql[0] := ModeUsb;
      rigSql[4] := SqlCmd;
      if name == "DCS" { rigSql[0] := SqlDcs; }
      if name == "DDC" { rigSql[0] := SqlDcsDecd; }
      if name == "DEN" { rigSql[0] := SqlDcsEncd; }
      if name == "TSQ" { rigSql[0] := SqlCtcss; }
      if name == "TDC" { rigSql[0] := SqlCtcssDecd; }
      if name == "TEN" { rigSql[0] := SqlCtcssEncd; }
      if name == "OFF" { rigSql[0] := SqlOff; }
      SquelchCodeByTests(name);
      assert rigSql[0] == SquelchCode(name);
      assert rigSql[..5] == SelectorFrame(SquelchCode(name), SqlCmd);
      SendCmd(rigSql, 5);
      var reply := GetByte();
    }

    /** `squelchFreq`: a CTCSS tone ("C") or DCS code ("D") as 4 BCD digits in
        P1-P2.  The driver converts into a 2-byte buffer and copies four bytes
        out of it, so P3-P4 are whatever lies past that buffer: the model
        leaves them unspecified. */
    method SquelchFreq(tone: nat, kind: string)
      requires tone < 0x1_0000_0000
      modifies this`written, this`incoming
      ensures |written| == |old(written)| + 5 && written[..|old(written)|] == old(written)
      ensures IsToneFrame(written[|old(written)|..], tone, kind)
      ensures incoming == Drop(old(incoming), 1)
    {
      var rigSqlFreq := new bv8[5](_ => 0x00);
      if kind == "C" { rigSqlFreq[4] := SqlCtcssSet; }
      if kind == "D" { rigSqlFreq[4] := SqlDcsSet; }
      var freqBcd := new bv8[2];
      ghost var garbage := freqBcd[..];
      var converted := ToBcdBe(freqBcd, tone, 4);
      EvenEncodingIgnoresBuffer(garbage, seq(2, _ => 0), tone, 4);
      for i := 0 to 4
        modifies rigSqlFreq
        invariant rigSqlFreq[..if i < 2 then i else 2] == freqBcd[..if i < 2 then i else 2]
        invariant rigSqlFreq[4] == ToneCmd(kind)
      {
        if i < freqBcd.Length {
          rigSqlFreq[i] := freqBcd[i];
        } else {
          var pastEnd: bv8 :| true;
          rigSqlFreq[i] := pastEnd;
        }
      }
      assert rigSqlFreq[..2] == BcdBe(tone, 4);
      ghost var frame := rigSqlFreq[..5];
      SendCmd(rigSqlFreq, 5);
      assert written[|old(written)|..] == frame;
      var reply := GetByte();
    }

    // -------------------------------------------------------------------
    // Queries

    /** `getFreqMode`: asks for the frequency and mode and reads the 5-byte
        reply D1-D5.  D1-D4 are the frequency as 8 BCD digits, D5 the mode
        byte; both are kept in the fields and the frequency is returned. */
    method GetFreqMode() returns (f: nat)
      modifies this
      ensures written == old(written) + ToggleFrame(RxFreqCmd)
      ensures incoming == Drop(old(incoming), 5)
      ensures freq == DecodeBcd(Take(old(incoming), 4, idle), 8)
      ensures mode == ModeName(Take(old(incoming), 5, idle)[4])
      ensures f == freq
    {
      var rigGetFreq := new bv8[5](_ => 0x00);
      rigGetFreq[4] := RxFreqCmd;
      var chars := new bv8[4];
      SendCmd(rigGetFreq, 5);
      for j := 0 to 4
        invariant written == old(written) + ToggleFrame(RxFreqCmd)
        invariant incoming == Drop(old(incoming), j)
        invariant forall k :: 0 <= k < j ==> chars[k] == Take(old(incoming), 4, idle)[k]
      {
        ReadStep(old(incoming), j, 4, idle);
        chars[j] := GetByte();
      }
      assert chars[..] == Take(old(incoming), 4, idle);
      ReadStep(old(incoming), 4, 5, idle);
      var modeint := GetByte();
      mode := ModeName(modeint);
      freq := FromBcdBe(chars, 8);
      f := freq;
    }

    /** `getMode`: the mode name after a fresh `getFreqMode`. */
    method GetMode() returns (m: string)
      modifies this
      ensures written == old(written) + ToggleFrame(RxFreqCmd)
      ensures incoming == Drop(old(incoming), 5)
      ensures freq == DecodeBcd(Take(old(incoming), 4, idle), 8)
      ensures m == mode == ModeName(Take(old(incoming), 5, idle)[4])
    {
      var l := GetFreqMode();
      m := mode;
    }

    /** `chkTx`: true unless the TX status byte is 0xFF, so also false when
        the radio sends nothing. */
    method ChkTx() returns (tx: bool)
      modifies this`written, this`incoming
      ensures written == old(written) + ToggleFrame(TxDataCmd)
      ensures incoming == Drop(old(incoming), 1)
      ensures tx == IsTransmitting(Take(old(incoming), 1, idle)[0])
    {
      var rigTXState := new bv8[5](_ => 0x00);
      rigTXState[4] := TxDataCmd;
      SendCmd(rigTXState, 5);
      var reply := GetByte();
      if reply == 255 {
        tx := false;
      } else {
        tx := true;
      }
    }

    /** `getSMeter`: the S-meter text for the RX status byte. */
    method GetSMeter() returns (text: string)
      modifies this`written, this`incoming
      ensures written == old(written) + ToggleFrame(RxDataCmd)
      ensures incoming == Drop(old(incoming), 1)
      ensures text == SMeterText(Take(old(incoming), 1, idle)[0])
    {
      var rigTXState := new bv8[5](_ => 0x00);
      rigTXState[4] := RxDataCmd;
      SendCmd(rigTXState, 5);
      var reply := GetByte();
      text := SMeterText(reply);
    }

    /** `getVFO`: "a" or "b" from the EEPROM byte at 0x0068; the second reply
        byte is read and discarded. */
    method GetVfo() returns (vfo: string)
      modifies this`written, this`incoming
      ensures written == old(written) + EepromReadFrame(MsbAddVfoStatus, LsbAddVfoStatus)
      ensures incoming == Drop(old(incoming), 2)
      ensures vfo == VfoName(Take(old(incoming), 1, idle)[0])
    {
      var rigTXState := new bv8[5](_ => 0x00);
      rigTXState[4] := EepromReadCmd;
      rigTXState[0] := MsbAddVfoStatus;
      rigTXState[1] := LsbAddVfoStatus;
      assert rigTXState[..5] == EepromReadFrame(MsbAddVfoStatus, LsbAddVfoStatus);
      SendCmd(rigTXState, 5);
      TakeConcat(old(incoming), 1, 1, idle);
      var reply := GetByte();
      if reply == 0x80 { vfo := "a"; } else { vfo := "b"; }
      reply := GetByte();
    }

    /** `getCW_MTR_Conf`: meter, keyer and break-in from the EEPROM byte at
        0x006B. */
    method GetCwMtrConf() returns (mtr: bv8, kyr: bool, bk: bool)
      modifies this`written, this`incoming
      ensures written == old(written) + EepromReadFrame(MsbAddCwMtrConf, LsbAddCwMtrConf)
      ensures incoming == Drop(old(incoming), 2)
      ensures CwMtrConf(mtr, kyr, bk) == DecodeCwMtr(Take(old(incoming), 1, idle)[0])
    {
      var rigTXState := new bv8[5](_ => 0x00);
      rigTXState[4] := EepromReadCmd;
      rigTXState[0] := MsbAddCwMtrConf;
      rigTXState[1] := LsbAddCwMtrConf;
      assert rigTXState[..5] == EepromReadFrame(MsbAddCwMtrConf, LsbAddCwMtrConf);
      SendCmd(rigTXState, 5);
      TakeConcat(old(incoming), 1, 1, idle);
      var reply := GetByte();
      mtr := reply & 0x03;
      kyr := reply & 0x10 != 0;
      bk := reply & 0x20 != 0;
      assert CwMtrConf(mtr, kyr, bk) == DecodeCwMtr(reply);
      reply := GetByte();
    }

    /** `getAGC_DSP_Conf`: AGC, DBF, DNR and DNF from the EEPROM byte at
        0x00A8. */
    method GetAgcDspConf() returns (agc: bool, dbf: bool, dnr: bool, dnf: bool)
      modifies this`written, this`incoming
      ensures written == old(written) + EepromReadFrame(MsbAddAgcDspConf, LsbAddAgcDspConf)
      ensures incoming == Drop(old(incoming), 2)
      ensures AgcDspConf(agc, dbf, dnr, dnf) == DecodeAgcDsp(Take(old(incoming), 1, idle)[0])
    {
      var rigTXState := new bv8[5](_ => 0x00);
      rigTXState[4] := EepromReadCmd;
      rigTXState[0] := MsbAddAgcDspConf;
      rigTXState[1] := LsbAddAgcDspConf;
      assert rigTXState[..5] == EepromReadFrame(MsbAddAgcDspConf, LsbAddAgcDspConf);
      SendCmd(rigTXState, 5);
      TakeConcat(old(incoming), 1, 1, idle);
      var reply := GetByte();
      agc := reply & 0x20 != 0;
      dbf := reply & 0x04 != 0;
      dnr := reply & 0x02 != 0;
      dnf := reply & 0x01 != 0;
      assert AgcDspConf(agc, dbf, dnr, dnf) == DecodeAgcDsp(reply);
      reply := GetByte();
    }

    /** `getSPLIT_status`: split on or off from the EEPROM byte at 0x008D. */
    method GetSplitStatus() returns (status: bool)
      modifies this`written, this`incoming
      ensures written == old(written) + EepromReadFrame(MsbAddSplitStatus, LsbAddSplitStatus)
      ensures incoming == Drop(old(incoming), 2)
      ensures status == DecodeSplit(Take(old(incoming), 1, idle)[0])
    {
      var rigTXState := new bv8[5](_ => 0x00);
      rigTXState[4] := EepromReadCmd;
      rigTXState[0] := MsbAddSplitStatus;
      rigTXState[1] := LsbAddSplitStatus;
      assert rigTXState[..5] == EepromReadFrame(MsbAddSplitStatus, LsbAddSplitStatus);
      SendCmd(rigTXState, 5);
      TakeConcat(old(incoming), 1, 1, idle);
      var reply := GetByte();
      status := reply & 0x80 != 0;
      reply := GetByte();
    }
  }
}
