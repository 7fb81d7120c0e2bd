/**
 * The encoder for basic authentication: bits gather in an accumulator of
 * machine width and leave six at a time; the tail is padded afterwards.
 */
module Base64 {
  import opened Options

  type byte = x: int | 0 <= x < 256

  const TABLE := "ABCDEFGHIJKLM" + "NOPQRSTUVWXYZ" + "abcdefghijklm" + "nopqrstuvwxyz" + "0123456789" + "+/"

  // ----- the encoding of section 4 of RFC 4648

  /** The letter for a value of six bits. */
  function Letter(n: int): char
    requires 0 <= n < 64
  {
    if n < 26 then 'A' + n as char
    else if n < 52 then 'a' + (n - 26) as char
    else if n < 62 then '0' + (n - 52) as char
    else if n == 62 then '+' else '/'
  }

  function ValueOf(c: char): Option<int> {
    if 'A' <= c <= 'Z' then Some((c - 'A') as int)
    else if 'a' <= c <= 'z' then Some((c - 'a') as int + 26)
    else if '0' <= c <= '9' then Some((c - '0') as int + 52)
    else if c == '+' then Some(62)
    else if c == '/' then Some(63)
    else None
  }

  lemma LetterValue(n: int)
    requires 0 <= n < 64
    ensures ValueOf(Letter(n)) == Some(n) && Letter(n) != '='
  {
  }

  lemma TableIs(n: int)
    requires 0 <= n < 64
    ensures |TABLE| == 64 && TABLE[n] == Letter(n)
  {
  }

  /** Six bits taken from one byte, or from two in a row. */
  function Six0(a: byte): (n: int) ensures 0 <= n < 64 { a / 4 }

  function Six1(a: byte, b: byte): (n: int) ensures 0 <= n < 64 { a % 4 * 16 + b / 16 }

  function Six2(b: byte, c: byte): (n: int) ensures 0 <= n < 64 { b % 16 * 4 + c / 64 }

  function Six3(c: byte): (n: int) ensures 0 <= n < 64 { c % 64 }

  /** The bytes of four times six bits. */
  function Byte0(p: int, q: int): byte requires 0 <= p < 64 && 0 <= q < 64 { p * 4 + q / 16 }

  function Byte1(q: int, r: int): byte requires 0 <= q < 64 && 0 <= r < 64 { q % 16 * 16 + r / 4 }

  function Byte2(r: int, t: int): byte requires 0 <= r < 64 && 0 <= t < 64 { r % 4 * 64 + t }

  lemma BytesOfSixes(a: byte, b: byte, c: byte)
    ensures Byte0(Six0(a), Six1(a, b)) == a && Byte1(Six1(a, b), Six2(b, c)) == b && Byte2(Six2(b, c), Six3(c)) == c
    ensures Six1(a, 0) % 16 == 0 && Six2(b, 0) % 4 == 0
  {
  }

  /** Four times six bits and three times eight are the same number of 24 bits, the first the highest. */
  lemma SameNumber(a: byte, b: byte, c: byte)
    ensures ((Six0(a) * 64 + Six1(a, b)) * 64 + Six2(b, c)) * 64 + Six3(c) == (a * 256 + b) * 256 + c
  {
  }

  lemma SixesOfBytes(p: int, q: int, r: int, t: int)
    requires 0 <= p < 64 && 0 <= q < 64 && 0 <= r < 64 && 0 <= t < 64
    ensures Six0(Byte0(p, q)) == p && Six1(Byte0(p, q), Byte1(q, r)) == q && Six2(Byte1(q, r), Byte2(r, t)) == r
      && Six3(Byte2(r, t)) == t
    ensures q % 16 == 0 ==> Six1(Byte0(p, q), 0) == q
    ensures r % 4 == 0 ==> Six2(Byte1(q, r), 0) == r
  {
  }

  function Length(n: nat): nat {
    (n + 2) / 3 * 4
  }

  lemma LengthStep(n: nat)
    ensures n == 0 ==> Length(n) == 0
    ensures n == 1 || n == 2 ==> Length(n) == 4
    ensures n > 2 ==> Length(n) == 4 + Length(n - 3)
  {
  }

  /** Three bytes make four letters; one or two bytes at the end are padded with zero bits, and the group with '='. */
  function Encode(s: seq<byte>): (t: string)
    ensures |t| == Length(|s|)
  {
    LengthStep(|s|);
    if |s| == 0 then []
    else if |s| == 1 then [Letter(Six0(s[0])), Letter(Six1(s[0], 0)), '=', '=']
    else if |s| == 2 then [Letter(Six0(s[0])), Letter(Six1(s[0], s[1])), Letter(Six2(s[1], 0)), '=']
    else [Letter(Six0(s[0])), Letter(Six1(s[0], s[1])), Letter(Six2(s[1], s[2])), Letter(Six3(s[2]))] + Encode(s[3..])
  }

  /** A decoder that accepts nothing but encodings. */
  function Decode(t: string): Option<seq<byte>> {
    if t == [] then Some([])
    else if |t| < 4 || ValueOf(t[0]) == None || ValueOf(t[1]) == None then None
    else
      var (p, q) := (ValueOf(t[0]).value, ValueOf(t[1]).value);
      if |t| == 4 && t[2] == '=' && t[3] == '=' then
        if q % 16 == 0 then Some([Byte0(p, q)]) else None
      else if ValueOf(t[2]) == None then None
      else
        var r := ValueOf(t[2]).value;
        if |t| == 4 && t[3] == '=' then
          if r % 4 == 0 then Some([Byte0(p, q), Byte1(q, r)]) else None
        else if ValueOf(t[3]) == None || Decode(t[4..]) == None then None
        else Some([Byte0(p, q), Byte1(q, r), Byte2(r, ValueOf(t[3]).value)] + Decode(t[4..]).value)
  }

  /** The decoder takes every encoding back to the bytes it came from. */
  lemma {:induction false} RoundTrip(s: seq<byte>)
    ensures Decode(Encode(s)) == Some(s)
  {
    hide Letter;
    hide ValueOf;
    hide Six0;
    hide Six1;
    hide Six2;
    hide Six3;
    hide Byte0;
    hide Byte1;
    hide Byte2;
    if s != [] {
      var (a, b, c) := (s[0], Pad(s, 1), Pad(s, 2));
      BytesOfSixes(a, b, c);
      LetterValue(Six0(a));
      LetterValue(Six1(a, b));
      LetterValue(Six2(b, c));
      LetterValue(Six3(c));
      if |s| == 1 {
        assert s == [a];
      } else if |s| == 2 {
        assert s == [a, b];
      } else {
        RoundTrip(s[3..]);
        assert Encode(s)[4..] == Encode(s[3..]);
        assert s == [a, b, c] + s[3..];
      }
    }
  }

  /** And whatever it accepts is the encoding of what it yields. */
  lemma {:induction false} DecodeExact(t: string)
    ensures Decode(t).Some? ==> Encode(Decode(t).value) == t
  {
    hide Letter;
    hide ValueOf;
    hide Six0;
    hide Six1;
    hide Six2;
    hide Six3;
    hide Byte0;
    hide Byte1;
    hide Byte2;
    if |t| >= 4 && Decode(t).Some? {
      ValueLetter(t[0]);
      ValueLetter(t[1]);
      ValueLetter(t[2]);
      ValueLetter(t[3]);
      var (p, q) := (ValueOf(t[0]).value, ValueOf(t[1]).value);
      if |t| == 4 && t[2] == '=' && t[3] == '=' {
        SixesOfBytes(p, q, 0, 0);
      } else {
        var r := ValueOf(t[2]).value;
        if |t| == 4 && t[3] == '=' {
          SixesOfBytes(p, q, r, 0);
        } else {
          SixesOfBytes(p, q, r, ValueOf(t[3]).value);
          DecodeExact(t[4..]);
          assert Decode(t).value[3..] == Decode(t[4..]).value;
          assert t == [t[0], t[1], t[2], t[3]] + t[4..];
        }
      }
    }
  }

  lemma ValueLetter(c: char)
    ensures ValueOf(c).Some? ==> 0 <= ValueOf(c).value < 64 && Letter(ValueOf(c).value) == c
  {
  }

  /** Three of the test vectors of section 10 of RFC 4648. */
  lemma TestVectors()
    ensures Encode([102]) == "Zg==" && Encode([102, 111]) == "Zm8="
    ensures Encode([102, 111, 111]) == "Zm9v"
  {
    hide Letter;
    hide Six0;
    hide Six1;
    hide Six2;
    hide Six3;
    LettersOf(102, 111, 111);
    LettersOf(102, 111, 0);
    LettersOf(102, 0, 0);
    assert [102, 111, 111][3..] == [];
  }

  lemma LettersOf(a: byte, b: byte, c: byte)
    requires a == 102 && b in {0, 111} && c in {0, 111}
    ensures Letter(Six0(a)) == 'Z'
    ensures Letter(Six1(a, b)) == if b == 0 then 'g' else 'm'
    ensures b == 111 ==> Letter(Six2(b, c)) == if c == 0 then '8' else '9'
    ensures c == 111 ==> Letter(Six3(c)) == 'v'
  {
  }

  // ----- the encoder

  function Pad(s: seq<byte>, i: nat): byte {
    if i < |s| then s[i] else 0
  }

  /** Six bits of the padded input. */
  function Sextet(s: seq<byte>, j: nat): (n: int)
    ensures 0 <= n < 64
  {
    var (g, k) := (j / 4 * 3, j % 4);
    if k == 0 then Six0(Pad(s, g))
    else if k == 1 then Six1(Pad(s, g), Pad(s, g + 1))
    else if k == 2 then Six2(Pad(s, g + 1), Pad(s, g + 2))
    else Six3(Pad(s, g + 2))
  }

  /** How many letters of the last group the input does not fill. */
  function Pads(n: nat): nat {
    (3 - n % 3) % 3
  }

  lemma PadsFit(n: nat)
    ensures Pads(n) <= (n + 2) / 3 * 4
  {
  }

  lemma PadsShift(n: nat)
    requires n > 2
    ensures Pads(n) == Pads(n - 3)
  {
  }

  lemma EncodeShort(s: seq<byte>, j: nat)
    requires 0 < |s| <= 2 && j < 4
    ensures Encode(s)[j] == if j >= 4 - Pads(|s|) then '=' else Letter(Sextet(s, j))
  {
    SextetHead(s);
    hide *;
    if |s| == 1 {
      EncodeOne(s);
    } else {
      EncodeTwo(s);
    }
  }

  lemma EncodeOne(s: seq<byte>)
    requires |s| == 1
    ensures Pads(|s|) == 2
    ensures Encode(s) == [Letter(Six0(s[0])), Letter(Six1(s[0], 0)), '=', '='] && Pad(s, 0) == s[0] && Pad(s, 1) == 0
  {
  }

  lemma EncodeTwo(s: seq<byte>)
    requires |s| == 2
    ensures Pads(|s|) == 1
    ensures Encode(s) == [Letter(Six0(s[0])), Letter(Six1(s[0], s[1])), Letter(Six2(s[1], 0)), '=']
    ensures Pad(s, 0) == s[0] && Pad(s, 1) == s[1] && Pad(s, 2) == 0
  {
  }

  lemma EncodeFirst(s: seq<byte>, j: nat)
    requires |s| > 2 && j < 4
    ensures Encode(s)[j] == Letter(Sextet(s, j)) && |Encode(s)| == 4 + |Encode(s[3..])|
  {
    hide Letter;
    hide Six0;
    hide Six1;
    hide Six2;
    hide Six3;
    SextetHead(s);
    hide Sextet;
  }

  lemma SextetHead(s: seq<byte>)
    ensures Sextet(s, 0) == Six0(Pad(s, 0)) && Sextet(s, 1) == Six1(Pad(s, 0), Pad(s, 1))
    ensures Sextet(s, 2) == Six2(Pad(s, 1), Pad(s, 2)) && Sextet(s, 3) == Six3(Pad(s, 2))
  {
  }

  /** Letter by letter: all sextets, the last one or two overwritten where the input does not fill the group. */
  lemma {:induction false} EncodeAt(s: seq<byte>, j: nat)
    requires j < |Encode(s)|
    ensures Encode(s)[j] == if j >= |Encode(s)| - Pads(|s|) then '=' else Letter(Sextet(s, j))
  {
    hide Letter;
    hide Six0;
    hide Six1;
    hide Six2;
    hide Six3;
    hide Sextet;
    hide Pads;
    if |s| <= 2 {
      EncodeShort(s, j);
    } else if j < 4 {
      EncodeFirst(s, j);
      PadsFit(|s| - 3);
      PadsShift(|s|);
    } else {
      EncodeAt(s[3..], j - 4);
      SextetShift(s, j);
      PadsShift(|s|);
    }
  }

  lemma SextetShift(s: seq<byte>, j: nat)
    requires |s| > 2 && j >= 4
    ensures Sextet(s[3..], j - 4) == Sextet(s, j)
  {
    hide Six0;
    hide Six1;
    hide Six2;
    hide Six3;
    assert (j - 4) / 4 * 3 == j / 4 * 3 - 3 && (j - 4) % 4 == j % 4;
    assert forall i :: i >= 0 ==> Pad(s[3..], i) == Pad(s, i + 3);
  }

  // ----- the accumulator

  const WORD := 0x1_0000_0000

  /** data << 8 | b, in a word of 32 bits. */
  function Push(data: int, b: byte): (r: int)
    requires 0 <= data < WORD
    ensures 0 <= r < WORD
  {
    (data * 256 + b) % WORD
  }

  /** 0x3F & (data >> shift) */
  function Take(data: int, shift: int): (r: int)
    requires 0 <= data < WORD && shift in {0, 2, 4, 6}
    ensures 0 <= r < 64
  {
    (if shift == 0 then data else if shift == 2 then data / 4 else if shift == 4 then data / 16 else data / 64) % 64
  }

  /** The bits still in the accumulator after i letters agree with the last byte pushed. */
  ghost predicate Holds(s: seq<byte>, i: nat, bits: int, data: int) {
    var g := i / 4 * 3;
    && 0 <= data < WORD && bits == i % 4 * 2
    && (i % 4 == 1 ==> data % 4 == Pad(s, g) % 4)
    && (i % 4 == 2 ==> data % 16 == Pad(s, g + 1) % 16)
    && (i % 4 == 3 ==> data % 64 == Pad(s, g + 2) % 64)
  }

  lemma Wrap(r: int)
    requires r >= 0
    ensures r % WORD % 256 == r % 256 && r % WORD % 1024 == r % 1024 && r % WORD % 4096 == r % 4096
  {
    var (k, q) := (r / WORD, r % WORD);
    assert r == k * 0x10_0000 * 4096 + q;
    WrapBy(k * 0x10_0000, q);
  }

  lemma WrapBy(m: int, q: int)
    requires q >= 0
    ensures (m * 4096 + q) % 4096 == q % 4096 && (m * 4096 + q) % 1024 == q % 1024 && (m * 4096 + q) % 256 == q % 256
  {
    Add4096(m, q);
    Add1024(m * 4, q);
    Add256(m * 16, q);
  }

  // Whole multiples of a power of two do not matter modulo it.

  lemma Add4(m: int, q: int) ensures (m * 4 + q) % 4 == q % 4 {}

  lemma Add16(m: int, q: int) ensures (m * 16 + q) % 16 == q % 16 {}

  lemma Add64(m: int, q: int) ensures (m * 64 + q) % 64 == q % 64 {}

  lemma Add256(m: int, q: int) ensures (m * 256 + q) % 256 == q % 256 {}

  lemma Add1024(m: int, q: int) ensures (m * 1024 + q) % 1024 == q % 1024 {}

  lemma Add4096(m: int, q: int) ensures (m * 4096 + q) % 4096 == q % 4096 {}

  lemma Shifts(q: int)
    requires q >= 0
    ensures q / 4 % 64 == q % 256 / 4 && q / 16 % 64 == q % 1024 / 16 && q / 64 % 64 == q % 4096 / 64
  {
    ShiftBy(q, 4);
    ShiftBy(q, 16);
    ShiftBy(q, 64);
  }

  lemma ShiftBy(q: int, d: int)
    requires q >= 0 && d in {4, 16, 64}
    ensures q / d % 64 == q % (64 * d) / d
  {
    var (k, r) := (q / (64 * d), q % (64 * d));
    assert q == k * (64 * d) + r;
    assert q / d == k * 64 + r / d;
  }

  lemma Pushed(data: int, b: byte)
    requires data >= 0
    ensures (data * 256 + b) % 256 == b
    ensures (data * 256 + b) % 1024 == data % 4 * 256 + b
    ensures (data * 256 + b) % 4096 == data % 16 * 256 + b
  {
  }

  lemma Lows(q: int)
    requires q >= 0
    ensures q % 4 == q % 256 % 4 && q % 16 == q % 256 % 16 && q % 64 == q % 256 % 64
  {
    var (k, r) := (q / 256, q % 256);
    assert q == k * 64 * 4 + r && q == k * 16 * 16 + r && q == k * 4 * 64 + r;
    Add4(k * 64, r);
    Add16(k * 16, r);
    Add64(k * 4, r);
  }

  lemma PushBits(data: int, b: byte)
    requires 0 <= data < WORD
    ensures Take(Push(data, b), 2) == b / 4 && Push(data, b) % 4 == b % 4
    ensures Take(Push(data, b), 4) == data % 4 * 16 + b / 16 && Push(data, b) % 16 == b % 16
    ensures Take(Push(data, b), 6) == data % 16 * 4 + b / 64 && Push(data, b) % 64 == b % 64
  {
    var r := data * 256 + b;
    Wrap(r);
    Pushed(data, b);
    Shifts(r % WORD);
    Lows(r % WORD);
  }

  /** What the accumulator yields for letter i, and holds afterwards. */
  lemma Letters(s: seq<byte>, i: nat, data: int)
    requires Holds(s, i, i % 4 * 2, data)
    ensures var (load, b) := (i % 4 != 3, Pad(s, i / 4 * 3 + i % 4));
      var data' := if load then Push(data, b) else data;
      var bits' := i % 4 * 2 + if load then 8 else 0;
      Take(data', bits' - 6) == Sextet(s, i) && Holds(s, i + 1, bits' - 6, data')
  {
    var b := Pad(s, i / 4 * 3 + i % 4);
    PushBits(data, b);
    hide Push;
  }

  /** The position in the input after i letters: it stays on the NUL at the end. */
  function Consumed(i: nat, n: nat): nat {
    var c := i / 4 * 3 + i % 4;
    if c < n then c else n
  }

  lemma ConsumedNext(i: nat, n: nat)
    ensures Consumed(i + 1, n) == if i % 4 != 3 && Consumed(i, n) < n then Consumed(i, n) + 1 else Consumed(i, n)
  {
    assert (i + 1) / 4 * 3 + (i + 1) % 4 == i / 4 * 3 + i % 4 + if i % 4 != 3 then 1 else 0;
  }

  method MakeBase64String(str: array<byte>) returns (buf: array<char>)
    requires str.Length > 0 && str[str.Length - 1] == 0 && forall i :: 0 <= i < str.Length - 1 ==> str[i] != 0
    ensures fresh(buf) && buf.Length > 0 && buf[buf.Length - 1] == '\0'
    ensures buf[..buf.Length - 1] == Encode(str[..str.Length - 1])
  {
    hide Letter;
    hide Encode;
    hide Sextet;
    hide Consumed;
    hide Push;
    hide Take;
    ghost var s := str[..str.Length - 1];
    var srcLen := str.Length - 1;
    var dstLen := (srcLen + 2) / 3 * 4;
    buf := new char[dstLen + 1];
    var bits, data := 0, 0;
    var src, dst := 0, 0;
    assert Consumed(0, srcLen) == 0 by {
      ConsumedStart(srcLen);
    }
    while dst < dstLen
      invariant 0 <= dst <= dstLen && src == Consumed(dst, srcLen) <= srcLen && buf.Length == dstLen + 1
      invariant Holds(s, dst, bits, data)
      invariant forall j :: 0 <= j < dst ==> buf[j] == Letter(Sextet(s, j))
    {
      Letters(s, dst, data);
      Next(s, str, dst, src, srcLen);
      if bits < 6 {
        data := Push(data, str[src]);
        bits := bits + 8;
        if str[src] != 0 {
          src := src + 1;
        }
      }
      TableIs(Take(data, bits - 6));
      buf[dst] := TABLE[Take(data, bits - 6)];
      dst := dst + 1;
      bits := bits - 6;
    }
    buf[dst] := '\0';
    FixUp(buf, s, srcLen, dst);
  }

  lemma ConsumedStart(n: nat)
    ensures Consumed(0, n) == 0
  {
  }

  /** The byte read next, and where it leaves the input. */
  lemma Next(s: seq<byte>, str: array<byte>, dst: nat, src: nat, srcLen: nat)
    requires str.Length == srcLen + 1 && s == str[..srcLen] && src == Consumed(dst, srcLen)
    requires str[srcLen] == 0 && forall i :: 0 <= i < srcLen ==> str[i] != 0
    ensures dst % 4 != 3 ==> str[src] == Pad(s, dst / 4 * 3 + dst % 4)
    ensures Consumed(dst + 1, srcLen) == if dst % 4 != 3 && str[src] != 0 then src + 1 else src
    ensures Consumed(dst + 1, srcLen) <= srcLen
  {
    ConsumedNext(dst, srcLen);
  }

  /** Overwrites the letters that the input does not fill. */
  method FixUp(buf: array<char>, ghost s: seq<byte>, srcLen: int, end: int)
    requires 0 <= end < buf.Length && end == |Encode(s)| && srcLen == |s|
    requires forall j :: 0 <= j < end ==> buf[j] == Letter(Sextet(s, j))
    modifies buf
    ensures buf[..end] == Encode(s) && forall j :: end <= j < buf.Length ==> buf[j] == old(buf[j])
  {
    hide Letter;
    hide Encode;
    hide Sextet;
    var dst := end;
    if srcLen % 3 == 1 {
      dst := dst - 1;
      buf[dst] := '=';
    }
    if srcLen % 3 == 1 || srcLen % 3 == 2 {
      dst := dst - 1;
      buf[dst] := '=';
    }
    forall j | 0 <= j < end ensures buf[j] == Encode(s)[j] {
      EncodeAt(s, j);
    }
  }
}
