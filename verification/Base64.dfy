// The hand-rolled base64 codec and the padding of SHA-1 used by the WebSocket upgrade.
module Base64 {
  import opened Bytes

  type Sextet = x: int | 0 <= x < 64

  // The alphabet: capitals, small letters, decimal digits, plus and slash.
  function Digit(v: Sextet): char {
    if v < 26 then ('A' as int + v) as char
    else if v < 52 then ('a' as int + v - 26) as char
    else if v < 62 then ('0' as int + v - 52) as char
    else if v == 62 then '+'
    else '/'
  }

  function Val(c: char): Option<Sextet> {
    if 'A' <= c <= 'Z' then Some(c as int - 'A' as int)
    else if 'a' <= c <= 'z' then Some(c as int - 'a' as int + 26)
    else if '0' <= c <= '9' then Some(c as int - '0' as int + 52)
    else if c == '+' then Some(62)
    else if c == '/' then Some(63)
    else None
  }

  // The alphabet and the digit values agree (section 4 of RFC 4648).
  lemma DigitVal(v: Sextet)
    ensures Val(Digit(v)) == Some(v) && Digit(v) != '='
  {
  }

  // Four characters for up to three bytes.
  function Group(b0: byte, b1: byte, b2: byte, count: nat): (s: string)
    requires 1 <= count <= 3
    ensures |s| == 4
  {
    var n := Triple(b0, b1, b2);
    [Digit((n / 0x4_0000) % 64), Digit((n / 0x1000) % 64),
     if count > 1 then Digit((n / 64) % 64) else '=',
     if count > 2 then Digit(n % 64) else '=']
  }

  function Encode(data: Bytes): string {
    if data == [] then ""
    else if |data| == 1 then Group(data[0], 0, 0, 1)
    else if |data| == 2 then Group(data[0], data[1], 0, 2)
    else Group(data[0], data[1], data[2], 3) + Encode(data[3..])
  }

  method Base64Encode(data: Bytes) returns (out: string)
    ensures out == Encode(data)
  {
    out := "";
    var i := 0;
    while i < |data|
      invariant i <= |data|
      invariant out + Encode(data[i..]) == Encode(data)
    {
      var count := if |data| - i < 3 then |data| - i else 3;
      var b1 := if count > 1 then data[i + 1] else 0;
      var b2 := if count > 2 then data[i + 2] else 0;
      assert data[i..][count..] == data[i + count..];
      Associate(out, Group(data[i], b1, b2, count), Encode(data[i + count..]));
      out := out + Group(data[i], b1, b2, count);
      i := i + count;
    }
  }

  function TrimEnd(s: string): string {
    if s != "" && s[|s| - 1] == '=' then TrimEnd(s[..|s| - 1]) else s
  }

  const WORD := 0x1_0000_0000

  // A 32-bit accumulator shifted left by six with the new digit in the low bits;
  // what the shift pushes out is lost.
  function ShiftIn(acc: nat, v: Sextet): (r: nat)
    requires acc < WORD
    ensures r < WORD
  {
    (acc * 64) % WORD + v
  }

  function DropBits(acc: nat, bits: nat): nat
    requires bits <= 7
  {
    acc / [1, 2, 4, 8, 16, 32, 64, 128][bits]
  }

  // The digits read with `bits` bits of the accumulator still to be emitted.
  function Digits(acc: nat, bits: nat, s: string): Option<Bytes>
    requires acc < WORD && bits < 8
    decreases |s|
  {
    if s == "" then Some([]) else
    match Val(s[0])
    case None => None
    case Some(v) =>
      var acc' := ShiftIn(acc, v);
      if bits + 6 < 8 then Digits(acc', bits + 6, s[1..])
      else
        match Digits(acc', bits - 2, s[1..])
        case None => None
        case Some(rest) => Some([DropBits(acc', bits - 2) % 256] + rest)
  }

  function Decode(s: string): Option<Bytes> {
    Digits(0, 0, TrimEnd(s))
  }

  method Base64Decode(s: string) returns (r: Option<Bytes>)
    ensures r == Decode(s)
  {
    var t := s;
    while t != "" && t[|t| - 1] == '='
      invariant TrimEnd(t) == TrimEnd(s)
      decreases |t|
    {
      t := t[..|t| - 1];
    }
    var out: Bytes := [];
    var acc: nat, bits: nat := 0, 0;
    assert t[0..] == t;
    PrependNothing(Digits(0, 0, t));
    for i := 0 to |t|
      invariant acc < WORD && bits < 8
      invariant Digits(0, 0, t) == Prepend(out, Digits(acc, bits, t[i..]))
    {
      assert t[i..] != "" && t[i..][0] == t[i];
      assert t[i..][1..] == t[i + 1..];
      var v := Val(t[i]);
      if v.None? {
        return None;
      }
      acc := ShiftIn(acc, v.value);
      bits := bits + 6;
      if bits >= 8 {
        bits := bits - 8;
        PrependTwice(out, [DropBits(acc, bits) % 256], Digits(acc, bits, t[i + 1..]));
        out := out + [DropBits(acc, bits) % 256];
      }
    }
    assert t[|t|..] == "";
    assert out + [] == out;
    return Some(out);
  }

  function Prepend(front: Bytes, r: Option<Bytes>): Option<Bytes> {
    match r
    case None => None
    case Some(rest) => Some(front + rest)
  }

  lemma PrependNothing(r: Option<Bytes>)
    ensures Prepend([], r) == r
  {
    if r.Some? {
      assert [] + r.value == r.value;
    }
  }

  lemma PrependTwice(a: Bytes, b: Bytes, r: Option<Bytes>)
    ensures Prepend(a, Prepend(b, r)) == Prepend(a + b, r)
  {
    if r.Some? {
      Associate(a, b, r.value);
    }
  }

  // The low bits of the accumulator are the last digits read, whatever was lost above.
  lemma LowBits(acc: nat, v: Sextet)
    requires acc < WORD
    ensures ShiftIn(acc, v) % 4096 == (acc % 64) * 64 + v
    ensures ShiftIn(acc, v) % 1024 == (acc % 16) * 64 + v
    ensures ShiftIn(acc, v) % 256 == (acc % 4) * 64 + v
    ensures ShiftIn(acc, v) % 64 == v
  {
    var hi, lo := acc / 0x400_0000, acc % 0x400_0000;
    DivModIs(acc * 64, hi, lo * 64, WORD);
    var r := lo * 64 + v;
    assert ShiftIn(acc, v) == r;
    LowBitsOf(hi, lo, 64, 0x10_0000);
    LowBitsOf(hi, lo, 16, 0x40_0000);
    LowBitsOf(hi, lo, 4, 0x100_0000);
    DivModIs(r, lo / 64, (lo % 64) * 64 + v, 4096);
    DivModIs(r, lo / 16, (lo % 16) * 64 + v, 1024);
    DivModIs(r, lo / 4, (lo % 4) * 64 + v, 256);
    DivModIs(r, lo, v, 64);
  }

  lemma LowBitsOf(hi: nat, lo: nat, d: nat, e: nat)
    requires d > 0 && d * e == 0x400_0000
    ensures (hi * 0x400_0000 + lo) % d == lo % d
  {
    var q, r := lo / d, lo % d;
    assert lo == q * d + r;
    assert hi * 0x400_0000 == (hi * e) * d;
    DivModIs(hi * 0x400_0000 + lo, hi * e + q, r, d);
  }

  lemma Emit4(acc: nat)
    ensures DropBits(acc, 4) % 256 == (acc % 4096) / 16
    ensures (acc % 64) % 16 == acc % 16
  {
    var q, r := acc / 4096, acc % 4096;
    DivModIs(acc, 256 * q + r / 16, r % 16, 16);
    DivModIs(256 * q + r / 16, q, r / 16, 256);
    var q', r' := acc / 64, acc % 64;
    DivModIs(acc, 4 * q' + r' / 16, r' % 16, 16);
  }

  lemma Emit2(acc: nat)
    ensures DropBits(acc, 2) % 256 == (acc % 1024) / 4
    ensures (acc % 64) % 4 == acc % 4
  {
    var q, r := acc / 1024, acc % 1024;
    DivModIs(acc, 256 * q + r / 4, r % 4, 4);
    DivModIs(256 * q + r / 4, q, r / 4, 256);
    var q', r' := acc / 64, acc % 64;
    DivModIs(acc, 16 * q' + r' / 4, r' % 4, 4);
  }

  // Three bytes as one number, and its four sextets.
  function Triple(b0: byte, b1: byte, b2: byte): nat {
    b0 as int * 0x1_0000 + b1 as int * 0x100 + b2
  }

  lemma Pieces(b0: byte, b1: byte, b2: byte)
    ensures var n := Triple(b0, b1, b2);
      var v0, v1, v2, v3 := (n / 0x4_0000) % 64, (n / 0x1000) % 64, (n / 64) % 64, n % 64;
      && (v0 * 64 + v1) / 16 == b0
      && ((v1 % 16) * 64 + v2) / 4 == b1
      && (v2 % 4) * 64 + v3 == b2
  {
    var n := Triple(b0, b1, b2);
    var h0: int, l0: int := b0 / 4, b0 % 4;
    var h1: int, l1: int := b1 / 16, b1 % 16;
    var h2: int, l2: int := b2 / 64, b2 % 64;
    DivModIs(n, h0, l0 * 0x1_0000 + b1 as int * 0x100 + b2, 0x4_0000);
    DivModIs(n, 64 * h0 + 16 * l0 + h1, l1 * 256 + b2, 0x1000);
    DivModIs(64 * h0 + 16 * l0 + h1, h0, 16 * l0 + h1, 64);
    DivModIs(n, b0 as int * 1024 + b1 as int * 4 + h2, l2, 64);
    DivModIs(b0 as int * 1024 + b1 as int * 4 + h2, 16 * b0 as int + h1, 4 * l1 + h2, 64);
    DivModIs(h0, 0, h0, 64);
    DivModIs(h0 * 64 + 16 * l0 + h1, b0 as int, h1, 16);
    DivModIs(16 * l0 + h1, l0, h1, 16);
    DivModIs(h1 * 64 + 4 * l1 + h2, b1 as int, h2, 4);
    DivModIs(4 * l1 + h2, l1, h2, 4);
  }

  lemma DigitsStep(acc: nat, bits: nat, v: Sextet, rest: string)
    requires acc < WORD && bits < 8
    ensures var acc' := ShiftIn(acc, v);
      Digits(acc, bits, [Digit(v)] + rest) ==
        if bits + 6 < 8 then Digits(acc', bits + 6, rest)
        else Prepend([DropBits(acc', bits - 2) % 256], Digits(acc', bits - 2, rest))
  {
    DigitVal(v);
    hide Val, Digit, ShiftIn, DropBits;
    assert ([Digit(v)] + rest)[1..] == rest;
  }

  // Two digits starting on a byte boundary give the first byte of their group ...
  lemma TwoDigits(acc: nat, b0: byte, b1: byte, b2: byte, rest: string) returns (acc2: nat)
    requires acc < WORD
    ensures acc2 < WORD
    ensures var g := Group(b0, b1, b2, 3);
      && Digits(acc, 0, [g[0]] + ([g[1]] + rest)) == Prepend([b0], Digits(acc2, 4, rest))
      && acc2 % 64 == (Triple(b0, b1, b2) / 0x1000) % 64
  {
    hide Digits, ShiftIn, DropBits, Triple;
    var n := Triple(b0, b1, b2);
    var v0: Sextet, v1: Sextet := (n / 0x4_0000) % 64, (n / 0x1000) % 64;
    var acc1 := ShiftIn(acc, v0);
    acc2 := ShiftIn(acc1, v1);
    DigitsStep(acc, 0, v0, [Digit(v1)] + rest);
    DigitsStep(acc1, 6, v1, rest);
    LowBits(acc, v0);
    LowBits(acc1, v1);
    Emit4(acc2);
    Pieces(b0, b1, b2);
  }

  // ... a third digit the second byte ...
  lemma ThreeDigits(acc: nat, b0: byte, b1: byte, b2: byte, rest: string) returns (acc3: nat)
    requires acc < WORD
    ensures acc3 < WORD
    ensures var g := Group(b0, b1, b2, 3);
      && Digits(acc, 0, [g[0]] + ([g[1]] + ([g[2]] + rest))) == Prepend([b0, b1], Digits(acc3, 2, rest))
      && acc3 % 64 == (Triple(b0, b1, b2) / 64) % 64
  {
    hide Digits, ShiftIn, DropBits, Triple;
    var v2: Sextet := (Triple(b0, b1, b2) / 64) % 64;
    var acc2 := TwoDigits(acc, b0, b1, b2, [Digit(v2)] + rest);
    acc3 := ShiftIn(acc2, v2);
    DigitsStep(acc2, 4, v2, rest);
    LowBits(acc2, v2);
    Emit4(acc2);
    Emit2(acc3);
    Pieces(b0, b1, b2);
    PrependTwice([b0], [b1], Digits(acc3, 2, rest));
    assert [b0] + [b1] == [b0, b1];
  }

  // ... and a fourth the third, back on a byte boundary.
  lemma FourDigits(acc: nat, b0: byte, b1: byte, b2: byte, rest: string) returns (acc4: nat)
    requires acc < WORD
    ensures acc4 < WORD
    ensures Digits(acc, 0, Group(b0, b1, b2, 3) + rest) == Prepend([b0, b1, b2], Digits(acc4, 0, rest))
  {
    hide Group, Digits;
    Spread(Group(b0, b1, b2, 3), rest);
    acc4 := FourthDigit(acc, b0, b1, b2, rest);
  }

  lemma Spread(g: string, rest: string)
    requires |g| == 4
    ensures g + rest == [g[0]] + ([g[1]] + ([g[2]] + ([g[3]] + rest)))
  {
  }

  lemma FourthDigit(acc: nat, b0: byte, b1: byte, b2: byte, rest: string) returns (acc4: nat)
    requires acc < WORD
    ensures acc4 < WORD
    ensures var g := Group(b0, b1, b2, 3);
      Digits(acc, 0, [g[0]] + ([g[1]] + ([g[2]] + ([g[3]] + rest)))) == Prepend([b0, b1, b2], Digits(acc4, 0, rest))
  {
    hide Digits, ShiftIn, Triple;
    var v3: Sextet := Triple(b0, b1, b2) % 64;
    var acc3 := ThreeDigits(acc, b0, b1, b2, [Digit(v3)] + rest);
    acc4 := ShiftIn(acc3, v3);
    DigitsStep(acc3, 2, v3, rest);
    LowBits(acc3, v3);
    Emit2(acc3);
    Pieces(b0, b1, b2);
    assert DropBits(acc4, 0) == acc4;
    PrependTwice([b0, b1], [b2], Digits(acc4, 0, rest));
    assert [b0, b1] + [b2] == [b0, b1, b2];
  }

  // The encoding without its padding.
  function Unpadded(data: Bytes): string {
    if data == [] then ""
    else if |data| == 1 then Group(data[0], 0, 0, 1)[..2]
    else if |data| == 2 then Group(data[0], data[1], 0, 2)[..3]
    else Group(data[0], data[1], data[2], 3) + Unpadded(data[3..])
  }

  lemma {:induction false} TrimEncoded(data: Bytes)
    ensures TrimEnd(Encode(data)) == Unpadded(data)
    decreases |data|
  {
    if |data| == 1 {
      GroupDigits(data[0], 0, 0);
      TrimTwo(Encode(data));
    } else if |data| == 2 {
      GroupDigits(data[0], data[1], 0);
      TrimOne(Encode(data));
    } else if data != [] {
      GroupDigits(data[0], data[1], data[2]);
      TrimEncoded(data[3..]);
      TrimAppend(Group(data[0], data[1], data[2], 3), Encode(data[3..]));
    }
  }

  lemma GroupDigits(b0: byte, b1: byte, b2: byte)
    ensures Group(b0, b1, b2, 1)[1] != '=' && Group(b0, b1, b2, 2)[2] != '=' && Group(b0, b1, b2, 3)[3] != '='
  {
    hide Triple;
    var n := Triple(b0, b1, b2);
    DigitVal((n / 0x1000) % 64);
    DigitVal((n / 64) % 64);
    DigitVal(n % 64);
  }

  lemma TrimOne(s: string)
    requires |s| == 4 && s[3] == '=' && s[2] != '='
    ensures TrimEnd(s) == s[..3]
  {
  }

  lemma TrimTwo(s: string)
    requires |s| == 4 && s[3] == '=' && s[2] == '=' && s[1] != '='
    ensures TrimEnd(s) == s[..2]
  {
    assert TrimEnd(s) == TrimEnd(s[..3]);
    assert s[..3][..2] == s[..2];
    assert TrimEnd(s[..3]) == TrimEnd(s[..2]);
  }

  lemma {:induction false} TrimAppend(a: string, b: string)
    requires a != "" && a[|a| - 1] != '='
    ensures TrimEnd(a + b) == a + TrimEnd(b)
    decreases |b|
  {
    if b == "" {
      assert a + b == a;
    } else if b[|b| - 1] == '=' {
      TrimAppend(a, b[..|b| - 1]);
      assert (a + b)[..|a + b| - 1] == a + b[..|b| - 1];
    }
  }

  lemma {:induction false} DigitsOfUnpadded(acc: nat, data: Bytes)
    requires acc < WORD
    ensures Digits(acc, 0, Unpadded(data)) == Some(data)
    decreases |data|
  {
    hide Digits, Group;
    if data == [] {
      NoDigits(acc, 0);
    } else if |data| == 1 {
      var acc2 := TwoDigits(acc, data[0], 0, 0, "");
      NoDigits(acc2, 4);
      PaddedGroups(data[0], 0);
      assert Unpadded(data) == [Group(data[0], 0, 0, 3)[0]] + ([Group(data[0], 0, 0, 3)[1]] + "");
      assert data == [data[0]] + [];
    } else if |data| == 2 {
      var acc3 := ThreeDigits(acc, data[0], data[1], 0, "");
      NoDigits(acc3, 2);
      PaddedGroups(data[0], data[1]);
      var g := Group(data[0], data[1], 0, 3);
      assert Unpadded(data) == [g[0]] + ([g[1]] + ([g[2]] + ""));
      assert data == [data[0], data[1]] + [];
    } else {
      var acc4 := FourDigits(acc, data[0], data[1], data[2], Unpadded(data[3..]));
      DigitsOfUnpadded(acc4, data[3..]);
      assert data == [data[0], data[1], data[2]] + data[3..];
    }
  }

  lemma NoDigits(acc: nat, bits: nat)
    requires acc < WORD && bits < 8
    ensures Digits(acc, bits, "") == Some([])
  {
  }

  lemma PaddedGroups(b0: byte, b1: byte)
    ensures Group(b0, 0, 0, 1)[..2] == Group(b0, 0, 0, 3)[..2] == [Group(b0, 0, 0, 3)[0], Group(b0, 0, 0, 3)[1]]
    ensures Group(b0, b1, 0, 2)[..3] == Group(b0, b1, 0, 3)[..3]
    ensures Group(b0, b1, 0, 3)[..3] == [Group(b0, b1, 0, 3)[0], Group(b0, b1, 0, 3)[1], Group(b0, b1, 0, 3)[2]]
  {
  }

  // Every byte string survives encoding and decoding.
  lemma RoundTrip(data: Bytes)
    ensures Decode(Encode(data)) == Some(data)
  {
    TrimEncoded(data);
    DigitsOfUnpadded(0, data);
  }

  // Decoding fails exactly on a foreign character in front of the trailing padding.
  lemma {:induction false} DecodeFails(acc: nat, bits: nat, s: string)
    requires acc < WORD && bits < 8
    ensures Digits(acc, bits, s).None? <==> exists c <- s :: Val(c).None?
    decreases |s|
  {
    if s != "" && Val(s[0]).Some? {
      var acc' := ShiftIn(acc, Val(s[0]).value);
      DecodeFails(acc', if bits + 6 < 8 then bits + 6 else bits - 2, s[1..]);
      assert s == [s[0]] + s[1..];
    }
  }

  // ---- What any text decodes to ----

  function Sextets(t: string): (vs: seq<Sextet>)
    requires forall c <- t :: Val(c).Some?
    ensures |vs| == |t|
  {
    seq(|t|, j requires 0 <= j < |t| => assert t[j] in t; Val(t[j]).value)
  }

  // Eight bits over two digits: six of the first, four or two.
  function Over62(a: int, b: int): int {
    a * 4 + b / 16
  }

  function Over44(a: int, b: int): int {
    (a % 16) * 16 + b / 4
  }

  function Over26(a: int, b: int): int {
    (a % 4) * 64 + b
  }

  // The k-th run of eight bits in a string of six-bit digits.
  function ByteAt(vs: seq<Sextet>, k: nat): int
    requires 8 * (k + 1) <= 6 * |vs|
  {
    var j := 8 * k / 6;
    if k % 3 == 0 then Over62(vs[j], vs[j + 1])
    else if k % 3 == 1 then Over44(vs[j], vs[j + 1])
    else Over26(vs[j], vs[j + 1])
  }

  // Every whole run of eight bits gives a byte, and bits left over give none.
  ghost predicate Spells(vs: seq<Sextet>, out: Bytes) {
    |out| == 6 * |vs| / 8 && forall k | 0 <= k < |out| :: out[k] == ByteAt(vs, k)
  }

  // Four digits as three bytes and back.
  lemma Regrouped(v0: Sextet, v1: Sextet, v2: Sextet, v3: Sextet) returns (b0: byte, b1: byte, b2: byte)
    ensures b0 == Over62(v0, v1) && b1 == Over44(v1, v2) && b2 == Over26(v2, v3)
    ensures var n := Triple(b0, b1, b2);
      (n / 0x4_0000) % 64 == v0 && (n / 0x1000) % 64 == v1 && (n / 64) % 64 == v2 && n % 64 == v3
  {
    b0, b1, b2 := Over62(v0, v1), Over44(v1, v2), Over26(v2, v3);
    var n: nat := Triple(b0, b1, b2);
    var i0: nat, i1: nat, i2: nat, i3: nat := v0, v1, v2, v3;
    assert n == i0 * 0x4_0000 + i1 * 0x1000 + i2 * 64 + i3;
    DivModIs(n, i0, i1 * 0x1000 + i2 * 64 + i3, 0x4_0000);
    DivModIs(n, i0 * 64 + i1, i2 * 64 + i3, 0x1000);
    DivModIs(n, i0 * 4096 + i1 * 64 + i2, i3, 64);
    DivModIs(i0, 0, i0, 64);
    DivModIs(i0 * 64 + i1, i0, i1, 64);
    DivModIs(i0 * 4096 + i1 * 64 + i2, i0 * 64 + i1, i2, 64);
  }

  lemma ValDigit(c: char)
    requires Val(c).Some?
    ensures Digit(Val(c).value) == c
  {
  }

  // The digits of a text as a group of the encoder, those behind its end taken as zero.
  lemma GroupOf(t: string) returns (b0: byte, b1: byte, b2: byte)
    requires t != "" && forall c <- t :: Val(c).Some?
    ensures var vs := Sextets(t); var v := (i: nat) => if i < |vs| then vs[i] else 0;
      && b0 == Over62(v(0), v(1)) && b1 == Over44(v(1), v(2)) && b2 == Over26(v(2), v(3))
    ensures var g := Group(b0, b1, b2, 3);
      forall i | 0 <= i < |t| && i < 4 :: g[i] == t[i]
  {
    hide Over62, Over44, Over26, Val;
    var vs := Sextets(t);
    b0, b1, b2 := Regrouped(vs[0], if |vs| > 1 then vs[1] else 0, if |vs| > 2 then vs[2] else 0,
                            if |vs| > 3 then vs[3] else 0);
    forall i | 0 <= i < |t| && i < 4 ensures Digit(vs[i]) == t[i] {
      ValDigit(t[i]);
    }
    hide Triple, Digit;
  }

  lemma {:induction false} DigitsSpell(acc: nat, t: string)
    requires acc < WORD && forall c <- t :: Val(c).Some?
    ensures Digits(acc, 0, t).Some? && Spells(Sextets(t), Digits(acc, 0, t).value)
    decreases |t|
  {
    hide Digits, Group, Val, Over62, Over44, Over26, Triple, ShiftIn;
    if t == "" {
      NoDigits(acc, 0);
    } else if |t| == 1 {
      ValDigit(t[0]);
      assert t == [t[0]] + "";
      DigitsStep(acc, 0, Val(t[0]).value, "");
      NoDigits(ShiftIn(acc, Val(t[0]).value), 6);
    } else {
      var b0, b1, b2 := GroupOf(t);
      var g := Group(b0, b1, b2, 3);
      if |t| == 2 {
        var acc2 := TwoDigits(acc, b0, b1, b2, "");
        NoDigits(acc2, 4);
        assert t == [g[0]] + ([g[1]] + "");
      } else if |t| == 3 {
        var acc3 := ThreeDigits(acc, b0, b1, b2, "");
        NoDigits(acc3, 2);
        assert t == [g[0]] + ([g[1]] + ([g[2]] + ""));
      } else {
        assert t == g + t[4..];
        var acc4 := FourDigits(acc, b0, b1, b2, t[4..]);
        DigitsSpell(acc4, t[4..]);
        SpellsMore(t, b0, b1, b2, Digits(acc4, 0, t[4..]).value);
      }
    }
  }

  lemma SpellsMore(t: string, b0: byte, b1: byte, b2: byte, rest: Bytes)
    requires |t| >= 4 && (forall c <- t :: Val(c).Some?) && Spells(Sextets(t[4..]), rest)
    requires var vs := Sextets(t);
      b0 == Over62(vs[0], vs[1]) && b1 == Over44(vs[1], vs[2]) && b2 == Over26(vs[2], vs[3])
    ensures Spells(Sextets(t), [b0, b1, b2] + rest)
  {
    var vs, out := Sextets(t), [b0, b1, b2] + rest;
    assert vs[4..] == Sextets(t[4..]);
    forall k | 0 <= k < |out| ensures out[k] == ByteAt(vs, k) {
      if k >= 3 {
        LaterByte(vs, k);
        assert out[k] == rest[k - 3];
      }
    }
  }

  lemma LaterByte(vs: seq<Sextet>, k: nat)
    requires 3 <= k && 8 * (k + 1) <= 6 * |vs|
    ensures |vs| >= 4 && ByteAt(vs, k) == ByteAt(vs[4..], k - 3)
  {
    assert 8 * k / 6 == 8 * (k - 3) / 6 + 4;
    assert (k - 3) % 3 == k % 3;
  }

  // Decoding any text at all: it fails exactly if a character in front of the trailing
  // padding is foreign, and else gives the bytes its digits spell, whatever its length.
  lemma DecodeSpells(s: string)
    ensures var t := TrimEnd(s);
      && t <= s && (forall i | |t| <= i < |s| :: s[i] == '=') && (t != "" ==> t[|t| - 1] != '=')
      && (Decode(s).None? <==> exists c <- t :: Val(c).None?)
      && (Decode(s).Some? ==> Spells(Sextets(t), Decode(s).value))
  {
    var t := TrimEnd(s);
    Trimmed(s);
    DecodeFails(0, 0, t);
    if forall c <- t :: Val(c).Some? {
      DigitsSpell(0, t);
    }
    hide Digits, Val;
  }

  lemma {:induction false} Trimmed(s: string)
    ensures var t := TrimEnd(s);
      t <= s && (forall i | |t| <= i < |s| :: s[i] == '=') && (t != "" ==> t[|t| - 1] != '=')
    decreases |s|
  {
    if s != "" && s[|s| - 1] == '=' {
      Trimmed(s[..|s| - 1]);
    }
  }

  // Four characters per started group of three bytes.
  lemma {:induction false} EncodedLength(data: Bytes)
    ensures |Encode(data)| == 4 * ((|data| + 2) / 3)
    decreases |data|
  {
    hide Group;
    if |data| >= 3 {
      EncodedLength(data[3..]);
      DivModIs(|data| + 2, (|data| - 1) / 3 + 1, (|data| - 1) % 3, 3);
    }
  }
}

module Sha1Padding {
  import opened Bytes

  function Zeros(k: nat): (z: Bytes)
    ensures |z| == k
  {
    seq(k, _ => 0)
  }

  // How many zero bytes reach 56 modulo 64 behind a message of n bytes and its marker.
  function ZeroCount(n: nat): (k: nat)
    ensures k < 64 && (n + 1 + k) % 64 == 56
  {
    (119 - n % 64) % 64
  }

  lemma ZeroCountLeast(n: nat, j: nat)
    requires (n + 1 + j) % 64 == 56
    ensures ZeroCount(n) <= j
  {
    var k := ZeroCount(n);
    var a, b := (n + 1 + j) / 64, (n + 1 + k) / 64;
    assert k - j == 64 * (b - a);
  }

  lemma WholeBlocks(x: nat)
    requires x % 64 == 56
    ensures (x + 8) % 64 == 0
  {
    DivModIs(x + 8, x / 64 + 1, 0, 64);
  }

  // The padded message of section 5.1.1 of FIPS 180-4: a one bit, the fewest zeros
  // that reach 448 modulo 512 bits, and the bit length in 64 bits.
  function Padded(data: Bytes): (msg: Bytes)
    ensures |msg| % 64 == 0
  {
    var k := ZeroCount(|data|);
    WholeBlocks(|data| + 1 + k);
    var msg := data + [0x80] + Zeros(k) + BigEndian(8 * |data|, 8);
    assert |msg| == |data| + 1 + k + 8;
    msg
  }

  method Pad(data: Bytes) returns (msg: Bytes)
    ensures msg == Padded(data)
  {
    msg := data + [0x80];
    ghost var k := 0;
    hide ZeroCount;
    while |msg| % 64 != 56
      invariant k <= ZeroCount(|data|)
      invariant msg == data + [0x80] + Zeros(k) && |msg| == |data| + 1 + k
      decreases ZeroCount(|data|) - k
    {
      assert Zeros(k) + [0] == Zeros(k + 1);
      Associate(data + [0x80], Zeros(k), [0]);
      msg := msg + [0];
      k := k + 1;
    }
    ZeroCountLeast(|data|, k);
    msg := msg + BigEndian(8 * |data|, 8);
  }

  // Messages whose bit length fits 64 bits share a padded form only if they are equal.
  lemma PaddedInjective(a: Bytes, b: Bytes)
    requires |a| < 0x2000_0000_0000_0000 && |b| < 0x2000_0000_0000_0000
    ensures Padded(a) == Padded(b) <==> a == b
  {
    Range8();
    hide BigEndian, Zeros, Range;
    if Padded(a) == Padded(b) {
      var la, lb := BigEndian(8 * |a|, 8), BigEndian(8 * |b|, 8);
      var pa, pb := Padded(a), Padded(b);
      assert pa[|pa| - 8..] == la && pb[|pb| - 8..] == lb;
      BigEndianRoundTrip(8 * |a|, 8);
      BigEndianRoundTrip(8 * |b|, 8);
      assert |a| == |b|;
      assert pa[..|a|] == a && pb[..|b|] == b;
    }
  }

  // The message, one bit, zeros, and the bit length, in the fewest blocks of 64 bytes that
  // hold them all.
  lemma PaddedLayout(data: Bytes)
    requires |data| < 0x2000_0000_0000_0000
    ensures var p, n := Padded(data), |data|;
      && |p| == 64 * ((n + 9 + 63) / 64)
      && p[..n] == data && p[n] == 128 && (forall i | n < i < |p| - 8 :: p[i] == 0)
      && FromBigEndian(p[|p| - 8..]) == 8 * n
  {
    var p, n := Padded(data), |data|;
    Range8();
    BigEndianRoundTrip(8 * n, 8);
    PaddedBlocks(n);
    hide BigEndian, FromBigEndian, ZeroCount, Range;
    assert |p| == n + 1 + ZeroCount(n) + 8 && p[|p| - 8..] == BigEndian(8 * n, 8);
  }

  lemma PaddedBlocks(n: nat)
    ensures n + 1 + ZeroCount(n) + 8 == 64 * ((n + 9 + 63) / 64)
  {
    var k := ZeroCount(n);
    hide ZeroCount;
    var q := (n + 1 + k) / 64;
    assert n + 1 + k == 64 * q + 56;
    DivModIs(n + 9 + 63, q + 1, 63 - k, 64);
  }

  lemma Range8()
    ensures Range(8) == 0x1_0000_0000_0000_0000
  {
    Range4();
  }
}
