/**
  `decodeSecret` (src/iologindata.cpp:50-77) and the unpadded Base32 encoding of section 6 of RFC 4648
  that it undoes.
  */
module Base32Secret {
  import opened Common

  type Digit = x: int | 0 <= x < 32

  /** The 32-bit unsigned buffer wraps here. */
  const WORD := 0x1_0000_0000

  function Pow2(n: nat): (p: nat)
    ensures p >= 1
  {
    if n == 0 then 1 else 2 * Pow2(n - 1)
  }

  // ----- the alphabet ---------------------------------------------------------------------------------

  function DigitOf(ch: char): (d: Option<Digit>)
    ensures d.Some? <==> 'A' <= ch <= 'Z' || '2' <= ch <= '7'
    ensures d.Some? ==> CharOf(d.value) == ch
  {
    if 'A' <= ch <= 'Z' then Some(ch as int - 'A' as int)
    else if '2' <= ch <= '7' then Some(ch as int - 24)
    else None
  }

  function CharOf(d: Digit): char {
    if d < 26 then ('A' as int + d) as char else (24 + d) as char
  }

  lemma CharDigit(d: Digit)
    ensures DigitOf(CharOf(d)) == Some(d)
  {}

  // ----- numbers --------------------------------------------------------------------------------------

  /** A text over the alphabet as a number in base 32. */
  function Value32(s: string): nat {
    if s == [] then 0
    else 32 * Value32(s[..|s| - 1]) + (if DigitOf(s[|s| - 1]) == None then 0 else DigitOf(s[|s| - 1]).value)
  }

  /** A key as a number in base 256. */
  function Value256(bs: seq<Byte>): nat {
    if bs == [] then 0 else 256 * Value256(bs[..|bs| - 1]) + bs[|bs| - 1]
  }

  lemma {:induction false} Value256Bound(bs: seq<Byte>)
    ensures Value256(bs) < Pow2(8 * |bs|)
  {
    if bs != [] {
      Value256Bound(bs[..|bs| - 1]);
      Pow2Add(8 * (|bs| - 1), 8);
    }
  }

  /** A number and a length determine the bytes. */
  lemma {:induction false} Value256Unique(a: seq<Byte>, b: seq<Byte>)
    requires |a| == |b| && Value256(a) == Value256(b)
    ensures a == b
  {
    if a != [] {
      var n := |a| - 1;
      Value256Unique(a[..n], b[..n]);
      assert a == a[..n] + [a[n]] && b == b[..n] + [b[n]];
    }
  }

  lemma Value256Next(bs: seq<Byte>, b: Byte)
    ensures Value256(bs + [b]) == 256 * Value256(bs) + b
  {
    assert (bs + [b])[..|bs|] == bs;
  }

  lemma {:induction false} Pow2Add(a: nat, b: nat)
    ensures Pow2(a + b) == Pow2(a) * Pow2(b)
    ensures Pow2(5) == 32 && Pow2(8) == 256
    decreases b
  {
    assert Pow2(4) == 16 && Pow2(6) == 64;
    if b > 0 {
      Pow2Add(a, b - 1);
      assert Pow2(a) * (2 * Pow2(b - 1)) == 2 * (Pow2(a) * Pow2(b - 1));
    }
  }

  // ----- encoding ---------------------------------------------------------------------------------------

  /** `v` in base 32, with `m` digits. */
  function Text(v: nat, m: nat): (s: string)
    ensures |s| == m && AllDigits(s)
    decreases m
  {
    if m == 0 then [] else CharDigit(v % 32); Text(v / 32, m - 1) + [CharOf(v % 32)]
  }

  lemma {:induction false} TextValue(v: nat, m: nat)
    requires v < Pow2(5 * m)
    ensures Value32(Text(v, m)) == v
    decreases m
  {
    if m > 0 {
      Pow2Add(5 * (m - 1), 5);
      TextValue(v / 32, m - 1);
      CharDigit(v % 32);
      Value32Next(Text(v / 32, m - 1), CharOf(v % 32));
    }
  }

  lemma Value32Next(s: string, ch: char)
    requires DigitOf(ch).Some?
    ensures Value32(s + [ch]) == 32 * Value32(s) + DigitOf(ch).value
  {
    assert (s + [ch])[..|s|] == s;
  }

  /** The number of digits for `n` bytes, and the zero bits that fill up the last one. */
  function DigitCount(n: nat): nat { (8 * n + 4) / 5 }

  function Filler(n: nat): (pad: nat)
    ensures pad < 5 && 5 * DigitCount(n) == 8 * n + pad
  {
    5 * DigitCount(n) - 8 * n
  }

  /** Unpadded Base32: the bits of the key, filled up with zeros, five at a time. */
  function Encode(key: seq<Byte>): (s: string)
    ensures |s| == DigitCount(|key|) && AllDigits(s)
  {
    Text(Filled(Value256(key), |key|), DigitCount(|key|))
  }

  function Filled(v: nat, n: nat): nat { v * Pow2(Filler(n)) }

  lemma EncodedFits(v: nat, n: nat)
    requires v < Pow2(8 * n)
    ensures Filled(v, n) < Pow2(5 * DigitCount(n))
  {
    Pow2Add(8 * n, Filler(n));
    ScaleLess(v, Pow2(8 * n), Pow2(Filler(n)));
  }

  lemma EncodedValue(key: seq<Byte>)
    ensures Value32(Encode(key)) == Filled(Value256(key), |key|)
  {
    Value256Bound(key);
    EncodedFits(Value256(key), |key|);
    TextValue(Filled(Value256(key), |key|), DigitCount(|key|));
  }

  lemma ScaleLess(a: nat, b: nat, c: nat)
    requires a < b && c >= 1
    ensures a * c < b * c
  {
    TimesAtLeast(c, b - a);
    assert (b - a) * c == b * c - a * c;
  }

  lemma TimesAtLeast(p: nat, k: nat)
    requires k >= 1
    ensures p * k >= p
  {
    assert p * k == p + p * (k - 1);
    assert p * (k - 1) >= 0;
  }

  // ----- decoding -----------------------------------------------------------------------------------------

  predicate AllDigits(s: string) {
    forall i :: 0 <= i < |s| ==> DigitOf(s[i]).Some?
  }

  /** All complete bytes have been handed out; fewer than 8 bits are pending, at the low end of the buffer. */
  ghost predicate Decoding(n: nat, value: nat, key: seq<Byte>, buffer: nat, left: nat) {
    && left < 8 && 5 * n == 8 * |key| + left && buffer < WORD
    && value == Value256(key) * Pow2(left) + buffer % Pow2(left)
  }

  /** The buffer after the shift by five bits and the new digit. */
  ghost function Shifted(buffer: nat, d: Digit): nat {
    buffer * 32 % WORD + d
  }

  lemma WordWidth()
    ensures WORD == Pow2(32)
  {
    Pow2Add(8, 8);
    Pow2Add(16, 16);
  }

  lemma WordIsPower(left: nat)
    requires left < 8
    ensures Pow2(left + 5) == 32 * Pow2(left) && WORD == Pow2(left + 5) * Pow2(27 - left)
  {
    Pow2Add(left, 5);
    Pow2Add(left + 5, 27 - left);
    assert left + 5 + (27 - left) == 32;
    WordWidth();
  }

  /** A multiple of `m` that is less than `m` in size is zero. */
  lemma NoSmallMultiple(x: int, m: nat, t: int)
    requires x == m * t && 0 - m < x < m
    ensures x == 0 && (m > 0 ==> t == 0)
  {
    if t >= 1 {
      TimesAtLeast(m, t);
      assert false;
    } else if t <= -1 {
      TimesNegative(m, t);
      assert false;
    }
  }

  lemma TimesNegative(p: nat, k: int)
    requires k <= -1
    ensures p * k <= 0 - p
  {
    TimesAtLeast(p, -k);
    assert p * k == -(p * (-k));
  }

  lemma DivMod(a: nat, m: nat)
    requires m >= 1
    ensures a == m * (a / m) + a % m && 0 <= a % m < m
  {}

  /** Shifting modulo `m * k` and reducing modulo `m` is shifting modulo `m`. */
  lemma ShiftModulo(buffer: nat, p: nat, m: nat, k: nat, d: nat)
    requires p >= 1 && k >= 1 && m == 32 * p && d < 32
    ensures m * k >= 1
    ensures (32 * buffer % (m * k) + d) % m == 32 * (buffer % p) + d
  {
    TimesAtLeast(m, k);
    var q1, r1 := 32 * buffer / (m * k), 32 * buffer % (m * k);
    DivMod(32 * buffer, m * k);
    var q2, r2 := (r1 + d) / m, (r1 + d) % m;
    DivMod(r1 + d, m);
    var q3, r3 := buffer / p, buffer % p;
    DivMod(buffer, p);
    assert m * k * q1 == m * (k * q1);
    assert 32 * (p * q3) == m * q3;
    var t := q3 - k * q1 - q2;
    assert m * t == m * q3 - m * (k * q1) - m * q2;
    NoSmallMultiple(r2 - (32 * r3 + d), m, t);
  }

  /** The 32-bit wrap-around does not reach the pending bits. */
  lemma ShiftKeepsPending(buffer: nat, left: nat, d: Digit)
    requires left < 8 && buffer < WORD
    ensures Shifted(buffer, d) < WORD
    ensures Shifted(buffer, d) % Pow2(left + 5) == 32 * (buffer % Pow2(left)) + d
  {
    WordIsPower(left);
    ShiftModulo(buffer, Pow2(left), Pow2(left + 5), Pow2(27 - left), d);
    assert 32 * buffer == buffer * 32;
    NoCarry(buffer, d);
  }

  lemma NoCarry(buffer: nat, d: Digit)
    ensures buffer * 32 % WORD + d < WORD
  {
    var r, q := buffer * 32 % WORD, buffer * 32 / WORD;
    assert buffer * 32 == WORD * q + r;
    assert r % 32 == 0;
  }

  /** The upper eight of the pending bits, and the rest. */
  lemma SplitByte(buffer: nat, left: nat)
    requires 8 <= left <= 12
    ensures var byte := buffer / Pow2(left - 8) % 256;
            buffer % Pow2(left) == byte * Pow2(left - 8) + buffer % Pow2(left - 8)
  {
    Pow2Add(left - 8, 8);
    SplitModulo(buffer, Pow2(left - 8), 256);
  }

  lemma SplitModulo(a: nat, p: nat, k: nat)
    requires p >= 1 && k >= 1
    ensures p * k >= 1 && a % (p * k) == (a / p % k) * p + a % p
  {
    TimesAtLeast(p, k);
    DivMod(a, p);
    DivMod(a / p, k);
    var high, low := a / p / k, a / p % k;
    Distribute(p, k, high, low);
    RestFits(low, a % p, p, k);
    ModuloIs(a, p * k, high, low * p + a % p);
  }

  lemma Distribute(p: nat, k: nat, q: nat, d: nat)
    ensures p * (k * q + d) == p * k * q + d * p
  {
    assert p * (k * q) == p * k * q;
  }

  lemma RestFits(d: nat, r: nat, p: nat, k: nat)
    requires d < k && r < p
    ensures 0 <= d * p + r < p * k
  {
    SumOfThree(p, d, k - d - 1);
    ProductNotNegative(d, p);
    ProductNotNegative(k - d - 1, p);
    assert d + 1 + (k - d - 1) == k;
  }

  lemma SumOfThree(p: nat, d: nat, e: nat)
    ensures p * (d + 1 + e) == d * p + p + e * p
  {}

  lemma ProductNotNegative(a: nat, b: nat)
    ensures 0 <= a * b
  {}

  lemma ModuloIs(a: nat, m: nat, q: nat, r: nat)
    requires m >= 1 && r < m && a == m * q + r
    ensures a % m == r
  {
    DivMod(a, m);
    var t := q - a / m;
    assert m * t == m * q - m * (a / m);
    NoSmallMultiple(a % m - r, m, t);
  }

  lemma DecodeOne(n: nat, value: nat, key: seq<Byte>, buffer: nat, left: nat, d: Digit)
    requires Decoding(n, value, key, buffer, left)
    ensures var buffer', left' := Shifted(buffer, d), left + 5;
            if left' >= 8
            then Decoding(n + 1, 32 * value + d, key + [buffer' / Pow2(left' - 8) % 256], buffer', left' - 8)
            else Decoding(n + 1, 32 * value + d, key, buffer', left')
  {
    var buffer', left' := Shifted(buffer, d), left + 5;
    ShiftKeepsPending(buffer, left, d);
    WordIsPower(left);
    var v := Value256(key);
    ValueAfterDigit(v, Pow2(left), buffer % Pow2(left), d);
    if left' >= 8 {
      var byte := buffer' / Pow2(left' - 8) % 256;
      SplitByte(buffer', left');
      Value256Next(key, byte);
      Pow2Add(left' - 8, 8);
      ValueAfterByte(v, Pow2(left' - 8), byte);
    }
  }

  lemma ValueAfterDigit(v: nat, p: nat, rest: nat, d: nat)
    ensures 32 * (v * p + rest) + d == v * (32 * p) + (32 * rest + d)
  {}

  lemma ValueAfterByte(v: nat, p: nat, byte: nat)
    ensures v * (p * 256) + byte * p == (256 * v + byte) * p
  {}

  /** What a text stands for: its complete groups of eight bits, the bits left over dropped. */
  ghost predicate Decodes(n: nat, value: nat, key: seq<Byte>) {
    |key| == 5 * n / 8 && Value256(key) == value / Pow2(5 * n % 8)
  }

  lemma DecodingEnds(n: nat, value: nat, key: seq<Byte>, buffer: nat, left: nat)
    requires Decoding(n, value, key, buffer, left)
    ensures Decodes(n, value, key)
  {
    assert left == 5 * n % 8;
    QuotientIs(value, Value256(key), Pow2(left), buffer % Pow2(left));
  }

  lemma QuotientIs(value: nat, a: nat, p: nat, rest: nat)
    requires value == a * p + rest && rest < p
    ensures value / p == a
  {
    DivMod(value, p);
    QuotientUnique(a, value / p, p, rest - value % p);
  }

  lemma QuotientUnique(a: nat, b: nat, p: nat, rest: int)
    requires 0 - p < rest < p && a * p + rest == b * p
    ensures a == b
  {
    assert rest == p * (b - a);
    NoSmallMultiple(rest, p, b - a);
  }

  /** `decodeSecret`: the bytes of the text, or nothing if a character is not in the alphabet. */
  method DecodeSecret(secret: string) returns (key: seq<Byte>)
    ensures !AllDigits(secret) ==> key == []
    ensures AllDigits(secret) ==> Decodes(|secret|, Value32(secret), key)
  {
    key := [];
    var buffer: nat, left: nat := 0, 0;
    for i := 0 to |secret|
      invariant AllDigits(secret[..i])
      invariant Decoding(i, Value32(secret[..i]), key, buffer, left)
    {
      var digit := DigitOf(secret[i]);
      if digit == None {
        return [];
      }
      Value32Next(secret[..i], secret[i]);
      assert secret[..i + 1] == secret[..i] + [secret[i]];
      DecodeOne(i, Value32(secret[..i]), key, buffer, left, digit.value);
      ghost var shifted := Shifted(buffer, digit.value);
      buffer := buffer * 32 % WORD + digit.value;
      assert buffer == shifted;
      left := left + 5;
      if left >= 8 {
        left := left - 8;
        key := key + [buffer / Pow2(left) % 256];
      }
    }
    assert secret[..|secret|] == secret;
    DecodingEnds(|secret|, Value32(secret), key, buffer, left);
  }

  // ----- the round trip -----------------------------------------------------------------------------------

  /** Whatever satisfies the decoder's postcondition on an encoded key is that key, of any length. */
  lemma DecodedIsKey(key: seq<Byte>, out: seq<Byte>)
    requires Decodes(|Encode(key)|, Value32(Encode(key)), out)
    ensures out == key
  {
    EncodedValue(key);
    var pad := Filler(|key|);
    assert |out| == |key| && 5 * |Encode(key)| % 8 == pad;
    QuotientIs(Filled(Value256(key), |key|), Value256(key), Pow2(pad), 0);
    Value256Unique(out, key);
  }

  /** Encoding a key and decoding the text gives the key back. */
  method EncodeThenDecode(key: seq<Byte>) returns (out: seq<Byte>)
    ensures out == key
  {
    out := DecodeSecret(Encode(key));
    DecodedIsKey(key, out);
  }
}
