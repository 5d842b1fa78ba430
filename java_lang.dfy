/** The pieces of the Java platform that the model classes and the marshaller rely on:
    32-bit `int` arithmetic, the hash codes and texts of String, Boolean and Integer,
    the hash accumulation of generated hashCode() methods and of List.hashCode(),
    and the UTF-16 and UTF-8 forms of a string. */
module JavaLang {

  import opened Wrappers

  /** Java's `int`: a 32-bit two's-complement integer. */
  type Int32 = x: int | -0x8000_0000 <= x <= 0x7fff_ffff

  /** A byte of an encoded text, as an unsigned value. */
  type Byte = x: int | 0 <= x < 0x100

  /** Java `int` arithmetic: the Int32 congruent to x modulo 2^32. */
  function Wrap(x: int): (r: Int32)
    ensures (x - r) % 0x1_0000_0000 == 0
  {
    var m := x % 0x1_0000_0000;
    if m <= 0x7fff_ffff then m else m - 0x1_0000_0000
  }

  /** Two integers congruent modulo 2^32 wrap to the same Int32. */
  lemma WrapCongruent(a: int, b: int)
    requires (a - b) % 0x1_0000_0000 == 0
    ensures Wrap(a) == Wrap(b)
  {
  }

  // ---------------------------------------------------------------------------
  // The 31-based hash accumulation

  /** `h = 31 * h + x` from h = seed over xs in order, in `int` arithmetic: the loop of
      String.hashCode() (seed 0), List.hashCode() (seed 1) and of every generated
      hashCode() (seed 1). */
  function HashFold(seed: Int32, xs: seq<Int32>): Int32
  {
    if xs == [] then seed else HashStep(HashFold(seed, xs[..|xs| - 1]), xs[|xs| - 1])
  }

  /** One step `h = 31 * h + x` of the accumulation, in `int` arithmetic. */
  function HashStep(h: Int32, x: Int32): Int32
  {
    Wrap(31 * h + x)
  }

  /** One more term is one more step. */
  lemma HashFoldStep(seed: Int32, xs: seq<Int32>, x: Int32)
    ensures HashFold(seed, xs + [x]) == HashStep(HashFold(seed, xs), x)
  {
    assert (xs + [x])[..|xs|] == xs;
  }

  /** The same accumulation over unbounded integers. */
  function HashPolynomial(seed: int, xs: seq<int>): int
  {
    if xs == [] then seed else 31 * HashPolynomial(seed, xs[..|xs| - 1]) + xs[|xs| - 1]
  }

  /** Multiplying by 31 keeps a multiple of 2^32 a multiple of 2^32. */
  lemma CongruentTimes31(d: int)
    requires d % 0x1_0000_0000 == 0
    ensures (31 * d) % 0x1_0000_0000 == 0
  {
    var q := d / 0x1_0000_0000;
    assert d == 0x1_0000_0000 * q;
    assert 31 * d == 0x1_0000_0000 * (31 * q);
  }

  /** Overflow after every step of the accumulation is the same as one wrap-around of the
      exact polynomial at the end. */
  lemma {:induction false} HashFoldWrapsOnce(seed: Int32, xs: seq<Int32>)
    ensures HashFold(seed, xs) == Wrap(HashPolynomial(seed, xs))
  {
    if xs != [] {
      var init, x := xs[..|xs| - 1], xs[|xs| - 1];
      HashFoldWrapsOnce(seed, init);
      var p := HashPolynomial(seed, init);
      var w := Wrap(p);
      assert HashFold(seed, xs) == HashStep(w, x) == Wrap(31 * w + x);
      assert HashPolynomial(seed, xs) == 31 * p + x;
      CongruentTimes31(p - w);
      assert (31 * p + x) - (31 * w + x) == 31 * (p - w);
      WrapCongruent(31 * p + x, 31 * w + x);
    }
  }

  /** Folding a concatenation folds the second part from the result of the first. */
  lemma {:induction false} HashFoldAppend(seed: Int32, xs: seq<Int32>, ys: seq<Int32>)
    ensures HashFold(seed, xs + ys) == HashFold(HashFold(seed, xs), ys)
  {
    if ys == [] {
      assert xs + ys == xs;
    } else {
      assert (xs + ys)[..|xs + ys| - 1] == xs + ys[..|ys| - 1];
      HashFoldAppend(seed, xs, ys[..|ys| - 1]);
    }
  }

  // ---------------------------------------------------------------------------
  // java.lang.String

  /** The UTF-16 code units Java stores for one character: one unit in the basic plane,
      a surrogate pair above it. */
  function CharUnits(c: char): (units: seq<Int32>)
    ensures 1 <= |units| <= 2
    ensures forall i :: 0 <= i < |units| ==> 0 <= units[i] < 0x1_0000
    ensures |units| == 1 <==> (c as int) < 0x1_0000
  {
    var v := c as int;
    if v < 0x1_0000 then [v]
    else [0xD800 + (v - 0x1_0000) / 0x400, 0xDC00 + (v - 0x1_0000) % 0x400]
  }

  /** The UTF-16 code units of a string, the sequence String.hashCode() runs over. */
  function Utf16(s: string): (units: seq<Int32>)
  {
    if s == [] then [] else Utf16(s[..|s| - 1]) + CharUnits(s[|s| - 1])
  }

  /** Every character gives one code unit, or two when it lies above the basic plane. */
  lemma {:induction false} Utf16Length(s: string)
    ensures |s| <= |Utf16(s)| <= 2 * |s|
    ensures |Utf16(s)| == |s| <==> forall i :: 0 <= i < |s| ==> (s[i] as int) < 0x1_0000
  {
    if s != [] {
      Utf16Length(s[..|s| - 1]);
      assert forall i :: 0 <= i < |s| - 1 ==> s[..|s| - 1][i] == s[i];
    }
  }

  /** String.hashCode(): the accumulation from 0 over the UTF-16 code units. */
  function StringHash(s: string): Int32
  {
    HashFold(0, Utf16(s))
  }

  // ---------------------------------------------------------------------------
  // java.lang.Boolean and java.lang.Integer

  /** Boolean.hashCode(). */
  function BooleanHash(b: bool): (h: Int32)
    ensures h == 1231 || h == 1237
    ensures b <==> h == 1231
  {
    if b then 1231 else 1237
  }

  /** Boolean.toString(). */
  function BooleanText(b: bool): string
  {
    if b then "true" else "false"
  }

  /** Integer.hashCode() is the value itself. */
  function IntegerHash(i: Int32): Int32
  {
    i
  }

  /** The decimal digits of n, most significant first, without leading zeros. */
  function Digits(n: nat): (s: string)
    ensures |s| >= 1
    ensures forall i :: 0 <= i < |s| ==> '0' <= s[i] <= '9'
    ensures s[0] == '0' ==> n == 0
  {
    if n < 10 then [('0' as int + n) as char]
    else Digits(n / 10) + [('0' as int + n % 10) as char]
  }

  /** The value of a string of decimal digits. */
  function DigitsValue(s: string): nat
    requires forall i :: 0 <= i < |s| ==> '0' <= s[i] <= '9'
  {
    if s == [] then 0 else 10 * DigitsValue(s[..|s| - 1]) + (s[|s| - 1] as int - '0' as int)
  }

  /** Integer.toString() / Long.toString(): a minus sign for negative values, then the digits. */
  function IntegerText(i: int): string
  {
    if i < 0 then "-" + Digits(-i) else Digits(i)
  }

  /** Reading the digits back gives the number. */
  lemma {:induction false} DigitsRoundTrip(n: nat)
    ensures DigitsValue(Digits(n)) == n
  {
    if n >= 10 {
      DigitsRoundTrip(n / 10);
      var s := Digits(n);
      assert s[..|s| - 1] == Digits(n / 10);
    }
  }

  // ---------------------------------------------------------------------------
  // UTF-8, as String.getBytes(UTF8) produces it

  /** The UTF-8 encoding of one character (section 3 of RFC 3629). */
  function EncodeChar(c: char): (bytes: seq<Byte>)
    ensures 1 <= |bytes| <= 4
  {
    var v := c as int;
    if v < 0x80 then [v]
    else if v < 0x800 then [0xC0 + v / 0x40, 0x80 + v % 0x40]
    else if v < 0x1_0000 then [0xE0 + v / 0x1000, 0x80 + (v / 0x40) % 0x40, 0x80 + v % 0x40]
    else [0xF0 + v / 0x4_0000, 0x80 + (v / 0x1000) % 0x40, 0x80 + (v / 0x40) % 0x40, 0x80 + v % 0x40]
  }

  /** The UTF-8 encoding of a string. */
  function Utf8(s: string): seq<Byte>
  {
    if s == [] then [] else EncodeChar(s[0]) + Utf8(s[1..])
  }

  /** Whether v is a Unicode scalar value, i.e. the code of some char. */
  predicate IsScalarValue(v: int)
  {
    0 <= v < 0xD800 || 0xE000 <= v < 0x11_0000
  }

  /** The number of bytes of the encoded character that starts with lead byte b. */
  function SequenceLength(b: Byte): nat
  {
    if b < 0x80 then 1 else if b < 0xE0 then 2 else if b < 0xF0 then 3 else 4
  }

  /** The scalar value that the n bytes at the front of bytes encode (n = 1 to 4). */
  function CodeOf(bytes: seq<Byte>, n: nat): int
    requires 1 <= n <= 4 && n <= |bytes|
  {
    var b0: int := bytes[0];
    if n == 1 then b0
    else
      var b1: int := bytes[1];
      if n == 2 then (b0 - 0xC0) * 0x40 + (b1 - 0x80)
      else
        var b2: int := bytes[2];
        if n == 3 then (b0 - 0xE0) * 0x1000 + (b1 - 0x80) * 0x40 + (b2 - 0x80)
        else
          var b3: int := bytes[3];
          (b0 - 0xF0) * 0x4_0000 + (b1 - 0x80) * 0x1000 + (b2 - 0x80) * 0x40 + (b3 - 0x80)
  }

  /** Decodes one character from the front of bytes, with the number of bytes it took. */
  function DecodeChar(bytes: seq<Byte>): Option<(char, nat)>
  {
    if bytes == [] then None
    else
      var n := SequenceLength(bytes[0]);
      if |bytes| < n then None
      else
        var v := CodeOf(bytes, n);
        if IsScalarValue(v) then Some((v as char, n)) else None
  }

  /** Decodes a whole byte sequence, or None when it is not the encoding of a string. */
  function DecodeUtf8(bytes: seq<Byte>): Option<string>
    decreases |bytes|
  {
    if bytes == [] then Some([])
    else match DecodeChar(bytes)
      case None => None
      case Some((c, n)) =>
        if n == 0 then None
        else match DecodeUtf8(bytes[n..])
          case None => None
          case Some(rest) => Some([c] + rest)
  }

  lemma TwoByteCode(v: int)
    requires 0x80 <= v < 0x800
    ensures (0xC0 + v / 0x40 - 0xC0) * 0x40 + (0x80 + v % 0x40 - 0x80) == v
  {
  }

  lemma ThreeByteCode(v: int)
    requires 0x800 <= v < 0x1_0000
    ensures (0xE0 + v / 0x1000 - 0xE0) * 0x1000 + (0x80 + (v / 0x40) % 0x40 - 0x80) * 0x40
            + (0x80 + v % 0x40 - 0x80) == v
  {
  }

  /** Division by 64 is determined by any quotient/remainder split with the remainder in range. */
  lemma DivMod64(x: int, q: int, r: int)
    requires 0 <= r < 0x40 && x == q * 0x40 + r
    ensures x / 0x40 == q && x % 0x40 == r
  {
  }

  /** Division by 4096 likewise. */
  lemma DivMod4096(x: int, q: int, r: int)
    requires 0 <= r < 0x1000 && x == q * 0x1000 + r
    ensures x / 0x1000 == q && x % 0x1000 == r
  {
  }

  lemma FourByteCode(v: int)
    requires 0x1_0000 <= v < 0x11_0000
    ensures (0xF0 + v / 0x4_0000 - 0xF0) * 0x4_0000 + (0x80 + (v / 0x1000) % 0x40 - 0x80) * 0x1000
            + (0x80 + (v / 0x40) % 0x40 - 0x80) * 0x40 + (0x80 + v % 0x40 - 0x80) == v
  {
    // v split into its 3-bit and three 6-bit groups
    var q3, r3 := v / 0x4_0000, v % 0x4_0000;
    var q2, r2 := r3 / 0x1000, r3 % 0x1000;
    var q1, r0 := r2 / 0x40, r2 % 0x40;
    assert r2 == q1 * 0x40 + r0;
    assert r3 == q2 * 0x1000 + r2;
    assert v == q3 * 0x4_0000 + r3;
    DivMod64(v, q3 * 0x1000 + q2 * 0x40 + q1, r0);
    DivMod64(v / 0x40, q3 * 0x40 + q2, q1);
    DivMod4096(v, q3 * 0x40 + q2, r2);
    DivMod64(v / 0x1000, q3, q2);
  }

  /** Decoding the front of an encoded character gives that character back. */
  lemma DecodeEncodedChar(c: char, rest: seq<Byte>)
    ensures DecodeChar(EncodeChar(c) + rest) == Some((c, |EncodeChar(c)|))
  {
    var v := c as int;
    var e := EncodeChar(c);
    var bytes := e + rest;
    assert bytes[..|e|] == e;
    assert SequenceLength(bytes[0]) == |e|;
    if v < 0x80 {
    } else if v < 0x800 {
      TwoByteCode(v);
    } else if v < 0x1_0000 {
      ThreeByteCode(v);
    } else {
      FourByteCode(v);
    }
    assert CodeOf(bytes, |e|) == v;
  }

  /** The UTF-8 encoding loses nothing: decoding it gives the string back. */
  lemma {:induction false} Utf8RoundTrip(s: string)
    ensures DecodeUtf8(Utf8(s)) == Some(s)
  {
    if s != [] {
      DecodeEncodedChar(s[0], Utf8(s[1..]));
      var e := EncodeChar(s[0]);
      assert Utf8(s)[|e|..] == Utf8(s[1..]);
      Utf8RoundTrip(s[1..]);
      assert [s[0]] + s[1..] == s;
    }
  }

  /** Every character takes one to four bytes, and exactly one when it is ASCII. */
  lemma {:induction false} Utf8Length(s: string)
    ensures |s| <= |Utf8(s)| <= 4 * |s|
    ensures |Utf8(s)| == |s| <==> forall i :: 0 <= i < |s| ==> (s[i] as int) < 0x80
  {
    if s != [] {
      Utf8Length(s[1..]);
      assert forall i :: 1 <= i < |s| ==> s[1..][i - 1] == s[i];
    }
  }

  /** The encoding of a concatenation is the concatenation of the encodings. */
  lemma {:induction false} Utf8Append(a: string, b: string)
    ensures Utf8(a + b) == Utf8(a) + Utf8(b)
  {
    if a != [] {
      assert (a + b)[1..] == a[1..] + b;
      Utf8Append(a[1..], b);
    } else {
      assert a + b == b;
    }
  }
}
