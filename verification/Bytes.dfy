// Byte strings and big-endian numbers.
module Bytes {
  type byte = x: int | 0 <= x < 256
  type Bytes = seq<byte>

  datatype Option<+T> = None | Some(value: T)

  // 256 to the power `width`: the number of values a field of `width` bytes can hold.
  function Range(width: nat): (r: nat)
    ensures r > 0
  {
    if width == 0 then 1 else 256 * Range(width - 1)
  }

  // The low `width` bytes of n, most significant first; higher bytes are truncated away.
  function BigEndian(n: nat, width: nat): (s: Bytes)
    ensures |s| == width
  {
    if width == 0 then [] else BigEndian(n / 256, width - 1) + [n % 256]
  }

  function FromBigEndian(s: Bytes): (n: nat)
    ensures n < Range(|s|)
  {
    if |s| == 0 then 0 else 256 * FromBigEndian(s[..|s| - 1]) + s[|s| - 1]
  }

  // A field reads back as the number written exactly when the number fits the field.
  lemma {:induction false} BigEndianRoundTrip(n: nat, width: nat)
    ensures FromBigEndian(BigEndian(n, width)) == n <==> n < Range(width)
  {
    if n < Range(width) && width > 0 {
      BigEndianRoundTrip(n / 256, width - 1);
      assert BigEndian(n, width)[..width - 1] == BigEndian(n / 256, width - 1);
    }
  }

  lemma {:induction false} FromBigEndianInjective(s: Bytes)
    ensures BigEndian(FromBigEndian(s), |s|) == s
  {
    if |s| > 0 {
      FromBigEndianInjective(s[..|s| - 1]);
      assert s == s[..|s| - 1] + [s[|s| - 1]];
    }
  }

  // The four-byte case as the sources write it, with shifts.
  function Shifted4(b0: int, b1: int, b2: int, b3: int): int {
    b0 * 0x100_0000 + b1 * 0x1_0000 + b2 * 0x100 + b3
  }

  lemma FromBigEndian4(s: Bytes)
    requires |s| == 4
    ensures FromBigEndian(s) == Shifted4(s[0], s[1], s[2], s[3])
  {
    assert s[..3][..2] == s[..2] && s[..2][..1] == s[..1] && s[..1][..0] == [];
    assert FromBigEndian(s[..1]) == s[0];
    assert FromBigEndian(s[..2]) == Shifted4(0, 0, s[0], s[1]);
    assert FromBigEndian(s[..3]) == Shifted4(0, s[0], s[1], s[2]);
  }

  lemma FromBigEndian2(s: Bytes)
    requires |s| == 2
    ensures FromBigEndian(s) == Shifted4(0, 0, s[0], s[1])
  {
    assert FromBigEndian(s[..1]) == s[0] by { assert s[..1][..0] == []; }
  }

  // n shifted right by `count` bytes.
  function ShiftRight(n: nat, count: nat): nat {
    if count == 0 then n else ShiftRight(n / 256, count - 1)
  }

  lemma {:induction false} BigEndianAt(n: nat, width: nat, i: nat)
    requires i < width
    ensures BigEndian(n, width)[i] == ShiftRight(n, width - 1 - i) % 256
  {
    if i < width - 1 {
      BigEndianAt(n / 256, width - 1, i);
    }
  }

  lemma Range4()
    ensures Range(4) == 0x1_0000_0000
  {
    assert Range(2) == 0x1_0000;
  }

  lemma Times(a: nat, b: nat, d: nat)
    requires a <= b
    ensures a * d <= b * d
  {
  }

  // The quotient and the remainder are the only way to split x by d.
  lemma DivModIs(x: nat, q: nat, r: nat, d: nat)
    requires r < d && x == q * d + r
    ensures x / d == q && x % d == r
  {
    var k := x / d;
    assert k * d <= x < k * d + d;
    assert k >= q by {
      if k < q {
        Times(k + 1, q, d);
      }
    }
    assert k <= q by {
      if q < k {
        Times(q + 1, k, d);
      }
    }
  }

  lemma Associate<T>(a: seq<T>, b: seq<T>, c: seq<T>)
    ensures a + (b + c) == a + b + c
  {
  }

  function Concat<T>(parts: seq<seq<T>>): seq<T> {
    if parts == [] then [] else parts[0] + Concat(parts[1..])
  }

  lemma {:induction false} ConcatAppend<T>(a: seq<seq<T>>, b: seq<seq<T>>)
    ensures Concat(a + b) == Concat(a) + Concat(b)
  {
    if a == [] {
      assert a + b == b;
    } else {
      ConcatAppend(a[1..], b);
      assert (a + b)[1..] == a[1..] + b;
      Associate(a[0], Concat(a[1..]), Concat(b));
    }
  }

  lemma ConcatSnoc<T>(a: seq<seq<T>>, x: seq<T>)
    ensures Concat(a + [x]) == Concat(a) + x
  {
    ConcatAppend(a, [x]);
    assert Concat([x]) == x + Concat([]);
  }
}
