/** Packed big-endian binary-coded decimal, as the FT-857D CAT protocol
    carries frequencies: two decimal digits per byte, the most significant
    digit in the high nibble of the first byte.  ToBcdBe and FromBcdBe are
    the driver's two conversion routines; BcdEncoded and DecodeBcd say what
    they compute, and the lemmas below relate the two directions. */
module Bcd {
  import opened Arith

  /** The high nibble of a byte (the C expression `b >> 4`). */
  function Hi(b: bv8): (d: nat)
    ensures d < 16
  {
    (b >> 4) as nat
  }

  /** The low nibble of a byte (the C expression `b & 0x0f`). */
  function Lo(b: bv8): (d: nat)
    ensures d < 16
  {
    (b & 0x0F) as nat
  }

  /** The byte whose high nibble is h and whose low nibble is l. */
  function Pack(h: nat, l: nat): (b: bv8)
    requires h < 16 && l < 16
    ensures Hi(b) == h && Lo(b) == l
  {
    ((h as bv8) << 4) | (l as bv8)
  }

  /** Every byte is the packing of its two nibbles. */
  lemma PackHiLo(b: bv8)
    ensures Pack(Hi(b), Lo(b)) == b
  {}

  /** v without its k lowest decimal digits, by k divisions by 10 as the
      encoder performs them. */
  function Shifted(v: nat, k: nat): nat
  {
    if k == 0 then v else Shifted(v, k - 1) / 10
  }

  /** Digit k of v, the least significant digit being digit 0: the last
      decimal digit left after k divisions by 10. */
  function Digit(v: nat, k: nat): (d: nat)
    ensures d < 10
  {
    Shifted(v, k) % 10
  }

  /** k divisions by 10 are one division by 10^k, so digit k of v is
      (v / 10^k) mod 10. */
  lemma {:induction false} ShiftedIsDiv(v: nat, k: nat)
    ensures Shifted(v, k) == v / Pow10(k)
    ensures Digit(v, k) == v / Pow10(k) % 10
  {
    if k > 0 {
      ShiftedIsDiv(v, k - 1);
      DivDiv(v, Pow10(k - 1), 10);
      assert Pow10(k) == Pow10(k - 1) * 10;
    }
  }

  /** Dropping k digits is dropping the last one and then k - 1 more. */
  lemma {:induction false} ShiftedFirst(v: nat, k: nat)
    requires k >= 1
    ensures Shifted(v, k) == Shifted(v / 10, k - 1)
  {
    if k > 1 {
      ShiftedFirst(v, k - 1);
    }
  }


  /** A buffer of bytes is long enough for n packed digits. */
  predicate Fits(s: seq<bv8>, n: nat)
  {
    (n + 1) / 2 <= |s|
  }

  /** Nibble p of a buffer in reading order: position 0 is the high nibble
      of byte 0, position 1 its low nibble, position 2 the high nibble of
      byte 1, and so on. */
  function Nibble(s: seq<bv8>, p: nat): (d: nat)
    requires p / 2 < |s|
    ensures d < 16
  {
    if p % 2 == 0 then Hi(s[p / 2]) else Lo(s[p / 2])
  }

  /** The first n nibbles of s are all decimal digits. */
  predicate IsBcd(s: seq<bv8>, n: nat)
    requires Fits(s, n)
  {
    forall p :: 0 <= p < n ==> Nibble(s, p) <= 9
  }

  /** The buffer that `to_bcd_be(s, v, n)` leaves behind.  Position p of the
      n-digit field holds digit n - 1 - p of v, so the field reads v's last
      n digits from the most significant down.  When n is odd, the trailing
      byte n / 2 gets only its high nibble (digit 0) and keeps its old low
      nibble.  Bytes past the field are untouched. */
  function BcdEncoded(s: seq<bv8>, v: nat, n: nat): (r: seq<bv8>)
    requires Fits(s, n)
  {
    seq(|s|, i requires 0 <= i < |s| => EncodedByte(s[i], v, n, i))
  }

  /** Byte i of BcdEncoded, given its old value b. */
  function EncodedByte(b: bv8, v: nat, n: nat, i: nat): bv8
  {
    if i < n / 2 then Pack(Digit(v, n - 1 - 2 * i), Digit(v, n - 2 - 2 * i))
    else if i == n / 2 && n % 2 == 1 then Pack(Digit(v, 0), Lo(b))
    else b
  }

  /** The (n + 1) / 2 bytes of the n-digit packing of v, written over a
      cleared buffer. */
  function BcdBe(v: nat, n: nat): (r: seq<bv8>)
  {
    BcdEncoded(seq((n + 1) / 2, _ => 0), v, n)
  }

  /** The number that the first n nibbles of s spell, read as decimal
      digits from the most significant down (each step is f * 10 + d).
      Nibbles above 9 are not rejected: they add their value like a digit. */
  function DecodeBcd(s: seq<bv8>, n: nat): nat
    requires Fits(s, n)
  {
    if n == 0 then 0 else DecodeBcd(s, n - 1) * 10 + Nibble(s, n - 1)
  }

  /** The sum of nibble p times 10^(n - 1 - p) over the first m positions. */
  function PositionalSum(s: seq<bv8>, n: nat, m: nat): nat
    requires m <= n && Fits(s, n)
  {
    if m == 0 then 0 else PositionalSum(s, n, m - 1) + Nibble(s, m - 1) * Pow10(n - m)
  }

  // ---------------------------------------------------------------------
  // The conversion routines

  /** `to_bcd_be`: writes the last n decimal digits of v into buf, two per
      byte, from the least significant digit down, and returns buf. */
  method ToBcdBe(buf: array<bv8>, v: nat, n: nat) returns (r: array<bv8>)
    requires Fits(buf[..], n)
    modifies buf
    ensures r == buf
    ensures buf[..] == BcdEncoded(old(buf[..]), v, n)
  {
    ghost var before := buf[..];
    var q := v;
    if n % 2 == 1 {
      buf[n / 2] := buf[n / 2] & 0x0F;
      buf[n / 2] := buf[n / 2] | ((q % 10) as bv8 << 4);
      q := q / 10;
    }
    ghost var mid := buf[..];
    var i: int := n / 2 - 1;
    while i >= 0
      invariant -1 <= i < n / 2
      invariant q == Shifted(v, n - 2 - 2 * i)
      invariant forall j :: i < j < n / 2 ==> buf[j] == PairAt(v, n, j)
      invariant forall j :: n / 2 <= j < buf.Length ==> buf[j] == mid[j]
    {
      DigitPair(v, n - 2 - 2 * i, q);
      var a := (q % 10) as bv8;
      q := q / 10;
      a := a | ((q % 10) as bv8 << 4);
      q := q / 10;
      buf[i] := a;
      i := i - 1;
    }
    EncoderResult(before, mid, buf[..], v, n);
    r := buf;
  }

  /** The byte one turn of the encoder loop builds from what is left of the
      number: its last digit low, the digit before it high. */
  function DigitPairByte(q: nat): bv8
  {
    (q % 10) as bv8 | ((q / 10 % 10) as bv8 << 4)
  }

  /** The byte the encoder loop writes at position j of an n-digit field. */
  function PairAt(v: nat, n: nat, j: nat): bv8
    requires j < n / 2
  {
    DigitPairByte(Shifted(v, n - 2 - 2 * j))
  }

  /** The encoder loop's result, byte by byte, is BcdEncoded. */
  lemma EncoderResult(before: seq<bv8>, mid: seq<bv8>, after: seq<bv8>, v: nat, n: nat)
    requires Fits(before, n) && |mid| == |before| && |after| == |before|
    requires n % 2 == 1 ==> mid[n / 2] == (before[n / 2] & 0x0F) | ((v % 10) as bv8 << 4)
    requires forall j :: 0 <= j < |mid| && (j != n / 2 || n % 2 == 0) ==> mid[j] == before[j]
    requires forall j :: 0 <= j < n / 2 ==> after[j] == PairAt(v, n, j)
    requires forall j :: n / 2 <= j < |after| ==> after[j] == mid[j]
    ensures after == BcdEncoded(before, v, n)
  {
    var e := BcdEncoded(before, v, n);
    forall j | 0 <= j < |after|
      ensures after[j] == e[j]
    {
      if j < n / 2 {
        DigitPair(v, n - 2 - 2 * j, Shifted(v, n - 2 - 2 * j));
        assert n - 2 - 2 * j + 1 == n - 1 - 2 * j;
      } else if j == n / 2 && n % 2 == 1 {
        OddTail(before[j], v);
      }
    }
  }

  /** The odd trailing byte: its low nibble is kept and digit 0 of v goes
      into its high nibble. */
  lemma OddTail(b: bv8, v: nat)
    ensures ((b & 0x0F) | ((v % 10) as bv8 << 4)) == Pack(Digit(v, 0), Lo(b))
  {
    assert Digit(v, 0) == v % 10;
  }

  /** One turn of the encoder loop: with q the number left after dropping c
      digits of v, its two low digits are digits c and c + 1 of v, and
      dropping them leaves v without c + 2 digits. */
  lemma DigitPair(v: nat, c: nat, q: nat)
    requires q == Shifted(v, c)
    ensures DigitPairByte(q) == Pack(Digit(v, c + 1), Digit(v, c))
    ensures q / 10 / 10 == Shifted(v, c + 2)
  {
    assert Shifted(v, c + 1) == q / 10;
    assert Shifted(v, c + 2) == Shifted(v, c + 1) / 10;
  }

  /** `from_bcd_be`: folds the first n nibbles of data into a number, two
      nibbles per byte and, for odd n, the high nibble of byte n / 2. */
  method FromBcdBe(data: array<bv8>, n: nat) returns (f: nat)
    requires Fits(data[..], n)
    ensures f == DecodeBcd(data[..], n)
  {
    ghost var s := data[..];
    f := 0;
    var i := 0;
    while i < n / 2
      invariant 0 <= i <= n / 2
      invariant f == DecodeBcd(s, 2 * i)
    {
      FoldPair(s, i);
      f := f * 10;
      f := f + (data[i] >> 4) as nat;
      f := f * 10;
      f := f + (data[i] & 0x0F) as nat;
      i := i + 1;
    }
    if n % 2 == 1 {
      FoldHigh(s, n / 2);
      assert n == 2 * (n / 2) + 1;
      f := f * 10;
      f := f + (data[n / 2] >> 4) as nat;
    } else {
      assert n == 2 * (n / 2);
    }
  }

  /** One turn of the decoder loop folds in both nibbles of byte i. */
  lemma FoldPair(s: seq<bv8>, i: nat)
    requires i < |s|
    ensures DecodeBcd(s, 2 * i + 2) == (DecodeBcd(s, 2 * i) * 10 + (s[i] >> 4) as nat) * 10 + (s[i] & 0x0F) as nat
  {
    FoldHigh(s, i);
    NibblePair(s, i);
  }

  /** Folding in position 2i, the high nibble of byte i. */
  lemma FoldHigh(s: seq<bv8>, i: nat)
    requires i < |s|
    ensures DecodeBcd(s, 2 * i + 1) == DecodeBcd(s, 2 * i) * 10 + (s[i] >> 4) as nat
  {
    NibblePair(s, i);
  }

  // ---------------------------------------------------------------------
  // What the encoder writes

  /** Position p of the encoded field holds digit n - 1 - p of v. */
  lemma EncodedNibble(s: seq<bv8>, v: nat, n: nat, p: nat)
    requires Fits(s, n) && p < n
    ensures Nibble(BcdEncoded(s, v, n), p) == Digit(v, n - 1 - p)
  {
    var e := BcdEncoded(s, v, n);
    var i := p / 2;
    assert e[i] == EncodedByte(s[i], v, n, i);
    if p % 2 == 0 {
      HighNibbleWritten(s[i], v, n, i);
      assert p == 2 * i && Nibble(e, p) == Hi(e[i]);
    } else {
      LowNibbleWritten(s[i], v, n, i);
      assert p == 2 * i + 1 && Nibble(e, p) == Lo(e[i]);
    }
  }

  /** The high nibble of byte i of the field is digit n - 1 - 2i, also in
      the odd trailing byte. */
  lemma HighNibbleWritten(b: bv8, v: nat, n: nat, i: nat)
    requires 2 * i < n
    ensures Hi(EncodedByte(b, v, n, i)) == Digit(v, n - 1 - 2 * i)
  {
    if i == n / 2 {
      assert n - 1 - 2 * i == 0;
    }
  }

  /** The low nibble of byte i of the field is digit n - 2 - 2i. */
  lemma LowNibbleWritten(b: bv8, v: nat, n: nat, i: nat)
    requires 2 * i + 1 < n
    ensures Lo(EncodedByte(b, v, n, i)) == Digit(v, n - 2 - 2 * i)
  {
    assert i < n / 2;
  }

  /** Big-endian layout: byte i of the field carries digits n - 1 - 2i (high
      nibble) and n - 2 - 2i (low nibble) of v, so with an even digit count the
      last byte of the field, n / 2 - 1, holds the two least significant
      digits and earlier bytes hold higher ones. */
  lemma EncodedLayout(s: seq<bv8>, v: nat, n: nat, i: nat)
    requires Fits(s, n) && i < n / 2
    ensures Hi(BcdEncoded(s, v, n)[i]) == Digit(v, n - 1 - 2 * i)
    ensures Lo(BcdEncoded(s, v, n)[i]) == Digit(v, n - 2 - 2 * i)
    ensures n % 2 == 0 && i == n / 2 - 1 ==>
              Hi(BcdEncoded(s, v, n)[i]) == Digit(v, 1) && Lo(BcdEncoded(s, v, n)[i]) == Digit(v, 0)
  {
    assert BcdEncoded(s, v, n)[i] == EncodedByte(s[i], v, n, i);
    HighNibbleWritten(s[i], v, n, i);
    LowNibbleWritten(s[i], v, n, i);
  }

  /** The encoder touches only the field: bytes from (n + 1) / 2 on keep their
      value, for odd n the low nibble of byte n / 2 keeps its value, and every
      nibble it writes is a decimal digit. */
  lemma EncodedFootprint(s: seq<bv8>, v: nat, n: nat)
    requires Fits(s, n)
    ensures |BcdEncoded(s, v, n)| == |s|
    ensures IsBcd(BcdEncoded(s, v, n), n)
    ensures forall i :: (n + 1) / 2 <= i < |s| ==> BcdEncoded(s, v, n)[i] == s[i]
    ensures n % 2 == 1 ==> Lo(BcdEncoded(s, v, n)[n / 2]) == Lo(s[n / 2])
  {
    forall p | 0 <= p < n
      ensures Nibble(BcdEncoded(s, v, n), p) <= 9
    {
      EncodedNibble(s, v, n, p);
    }
  }

  /** With an even digit count every byte of the field is overwritten, so the
      earlier contents of the buffer do not show in the result. */
  lemma EvenEncodingIgnoresBuffer(s: seq<bv8>, t: seq<bv8>, v: nat, n: nat)
    requires Fits(s, n) && Fits(t, n) && n % 2 == 0
    ensures BcdEncoded(s, v, n)[..n / 2] == BcdEncoded(t, v, n)[..n / 2]
    ensures BcdEncoded(s, v, n)[..n / 2] == BcdBe(v, n)
  {}

  // ---------------------------------------------------------------------
  // What the decoder computes

  /** The decoder is the positional sum: nibble p weighs 10^(n - 1 - p). */
  lemma DecodeIsPositionalSum(s: seq<bv8>, n: nat)
    requires Fits(s, n)
    ensures DecodeBcd(s, n) == PositionalSum(s, n, n)
  {
    ScaledPrefix(s, n, n);
  }

  lemma {:induction false} ScaledPrefix(s: seq<bv8>, n: nat, m: nat)
    requires m <= n && Fits(s, n)
    ensures DecodeBcd(s, m) * Pow10(n - m) == PositionalSum(s, n, m)
  {
    if m > 0 {
      ScaledPrefix(s, n, m - 1);
      var a, d, p := DecodeBcd(s, m - 1), Nibble(s, m - 1), Pow10(n - m);
      assert Pow10(n - (m - 1)) == 10 * p;
      ShiftDigit(a, d, p);
    }
  }

  /** A field of n decimal digits spells a number below 10^n. */
  lemma {:induction false} DecodeBound(s: seq<bv8>, n: nat)
    requires Fits(s, n) && IsBcd(s, n)
    ensures DecodeBcd(s, n) < Pow10(n)
  {
    if n > 0 {
      assert IsBcd(s, n - 1);
      DecodeBound(s, n - 1);
      assert Nibble(s, n - 1) <= 9;
    }
  }

  /** Digit k of a decoded field is the nibble at position m - 1 - k. */
  lemma {:induction false} DigitOfDecode(s: seq<bv8>, m: nat, k: nat)
    requires Fits(s, m) && IsBcd(s, m) && k < m
    ensures Digit(DecodeBcd(s, m), k) == Nibble(s, m - 1 - k)
  {
    var x, d := DecodeBcd(s, m - 1), Nibble(s, m - 1);
    assert d <= 9;
    assert DecodeBcd(s, m) == 10 * x + d;
    AppendDigit(x, d);
    if k > 0 {
      assert IsBcd(s, m - 1);
      DigitOfDecode(s, m - 1, k - 1);
      ShiftedFirst(10 * x + d, k);
    }
  }

  // ---------------------------------------------------------------------
  // Round trips

  /** A field whose position p holds digit n - 1 - p of v: its first m
      positions spell the last m digits of what is left of v after dropping
      its n - m lowest digits. */
  lemma {:induction false} DecodeDigits(e: seq<bv8>, v: nat, n: nat, m: nat)
    requires Fits(e, n) && m <= n
    requires forall p :: 0 <= p < n ==> Nibble(e, p) == Digit(v, n - 1 - p)
    ensures DecodeBcd(e, m) == LastDigits(Shifted(v, n - m), m)
  {
    if m > 0 {
      var w := Shifted(v, n - m);
      DecodeDigits(e, v, n, m - 1);
      assert Shifted(v, n - (m - 1)) == w / 10;
      assert Nibble(e, m - 1) == Digit(v, n - m) by {
        assert n - 1 - (m - 1) == n - m;
      }
      LastDigitsStep(DecodeBcd(e, m), DecodeBcd(e, m - 1), Nibble(e, m - 1), w, m);
    }
  }

  /** Encoding v in n digits and decoding the field gives v modulo 10^n:
      digits above the field are dropped, nothing else is lost. */
  lemma EncodeDecodeRoundTrip(s: seq<bv8>, v: nat, n: nat)
    requires Fits(s, n)
    ensures DecodeBcd(BcdEncoded(s, v, n), n) == v % Pow10(n)
  {
    var e := BcdEncoded(s, v, n);
    forall p | 0 <= p < n
      ensures Nibble(e, p) == Digit(v, n - 1 - p)
    {
      EncodedNibble(s, v, n, p);
    }
    DecodeDigits(e, v, n, n);
    assert Shifted(v, n - n) == v;
    LastDigitsIsMod(v, n);
  }

  /** Re-encoding the number a well-formed field spells rebuilds the buffer
      exactly, including the kept low nibble of an odd trailing byte. */
  lemma DecodeEncodeRoundTrip(s: seq<bv8>, n: nat)
    requires Fits(s, n) && IsBcd(s, n)
    ensures BcdEncoded(s, DecodeBcd(s, n), n) == s
  {
    var e := BcdEncoded(s, DecodeBcd(s, n), n);
    forall i | 0 <= i < |s|
      ensures e[i] == s[i]
    {
      ReencodedByte(s, n, i);
    }
  }

  lemma ReencodedByte(s: seq<bv8>, n: nat, i: nat)
    requires Fits(s, n) && IsBcd(s, n) && i < |s|
    ensures BcdEncoded(s, DecodeBcd(s, n), n)[i] == s[i]
  {
    var x := DecodeBcd(s, n);
    var b := EncodedByte(s[i], x, n, i);
    assert BcdEncoded(s, x, n)[i] == b;
    if 2 * i < n {
      HighReencoded(s, n, i);
      LowReencoded(s, n, i);
      NibblesFixByte(b, s[i]);
    }
  }

  /** Re-encoding restores the high nibble of a byte of the field. */
  lemma HighReencoded(s: seq<bv8>, n: nat, i: nat)
    requires Fits(s, n) && IsBcd(s, n) && 2 * i < n
    ensures Hi(EncodedByte(s[i], DecodeBcd(s, n), n, i)) == Hi(s[i])
  {
    var x, k := DecodeBcd(s, n), n - 1 - 2 * i;
    HighNibbleWritten(s[i], x, n, i);
    DigitOfDecode(s, n, k);
    assert n - 1 - k == 2 * i;
    NibblePair(s, i);
  }

  /** Re-encoding restores the low nibble of a byte of the field, written
      or kept. */
  lemma LowReencoded(s: seq<bv8>, n: nat, i: nat)
    requires Fits(s, n) && IsBcd(s, n) && 2 * i < n
    ensures Lo(EncodedByte(s[i], DecodeBcd(s, n), n, i)) == Lo(s[i])
  {
    var x := DecodeBcd(s, n);
    if 2 * i + 1 < n {
      var k := n - 2 - 2 * i;
      LowNibbleWritten(s[i], x, n, i);
      DigitOfDecode(s, n, k);
      assert n - 1 - k == 2 * i + 1;
      NibblePair(s, i);
    } else {
      LowNibbleKept(s[i], x, n, i);
    }
  }

  /** Positions 2i and 2i + 1 are the two nibbles of byte i. */
  lemma NibblePair(s: seq<bv8>, i: nat)
    requires i < |s|
    ensures Nibble(s, 2 * i) == Hi(s[i]) && Nibble(s, 2 * i + 1) == Lo(s[i])
  {
    assert (2 * i) / 2 == i && (2 * i) % 2 == 0;
    assert (2 * i + 1) / 2 == i && (2 * i + 1) % 2 == 1;
  }

  /** The odd trailing byte keeps its low nibble. */
  lemma LowNibbleKept(b: bv8, v: nat, n: nat, i: nat)
    requires 2 * i + 1 == n
    ensures Lo(EncodedByte(b, v, n, i)) == Lo(b)
  {
    assert i == n / 2 && n % 2 == 1;
  }

  /** A byte is fixed by its two nibbles. */
  lemma NibblesFixByte(a: bv8, b: bv8)
    requires Hi(a) == Hi(b) && Lo(a) == Lo(b)
    ensures a == b
  {
    PackHiLo(a);
    PackHiLo(b);
  }
}
