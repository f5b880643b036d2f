/** What several parts of the model share. */
module Common {

  datatype Option<+T> = None | Some(value: T)

  type Byte = b: int | 0 <= b < 256
  type Bytes = seq<Byte>

  const U64: nat := 0x1_0000_0000_0000_0000

  function Min(a: int, b: int): int { if a <= b then a else b }
  function Max(a: int, b: int): int { if a >= b then a else b }

  /** A string of bytes as the server holds it. */
  function Text(b: Bytes): (s: string)
    ensures |s| == |b| && forall i :: 0 <= i < |b| ==> s[i] == b[i] as char
  {
    seq(|b|, i requires 0 <= i < |b| => b[i] as char)
  }

  lemma TextInjective(a: Bytes, b: Bytes)
    requires Text(a) == Text(b)
    ensures a == b
  {
    forall i | 0 <= i < |a| ensures a[i] == b[i] {
      assert (Text(a)[i]) as int == a[i] && Text(b)[i] as int == b[i];
    }
  }

  // ---------- little-endian integers ----------

  function LittleEndian(n: nat, width: nat): (r: Bytes)
    ensures |r| == width
  {
    if width == 0 then [] else [n % 256] + LittleEndian(n / 256, width - 1)
  }

  function Power256(width: nat): nat { if width == 0 then 1 else 256 * Power256(width - 1) }

  lemma {:induction false} LittleEndianInjective(m: nat, n: nat, width: nat)
    requires m < Power256(width) && n < Power256(width)
    requires LittleEndian(m, width) == LittleEndian(n, width)
    ensures m == n
  {
    if width > 0 {
      var x, y := LittleEndian(m, width), LittleEndian(n, width);
      assert m % 256 == x[0] == y[0] == n % 256;
      assert x[1..] == LittleEndian(m / 256, width - 1) && y[1..] == LittleEndian(n / 256, width - 1);
      LittleEndianInjective(m / 256, n / 256, width - 1);
    }
  }

  /** The bytes of a number, lowest first. */
  lemma {:induction false} LittleDigit(n: nat, width: nat, k: nat)
    requires k < width
    ensures Power256(k) > 0 && LittleEndian(n, width)[k] == n / Power256(k) % 256
  {
    if k > 0 {
      PowerPositive(k - 1);
      LittleDigit(n / 256, width - 1, k - 1);
      DivideTwice(n, Power256(k - 1));
    }
  }

  lemma {:induction false} PowerPositive(k: nat)
    ensures Power256(k) > 0
  {
    if k > 0 { PowerPositive(k - 1); }
  }

  lemma DivideTwice(n: nat, p: nat)
    requires p > 0
    ensures n / 256 / p == n / (256 * p)
  {
    var q, r := n / 256 / p, n / 256 % p;
    assert n == 256 * (q * p + r) + n % 256;
    assert n == (256 * p) * q + (256 * r + n % 256);
    assert 256 * r + n % 256 < 256 * p;
    QuotientIs(n, 256 * p, q, 256 * r + n % 256);
  }

  lemma AtLeastOnce(d: nat, x: int)
    ensures x >= 1 ==> d * x >= d
    ensures x <= -1 ==> d * x + d <= 0
  {
  }

  lemma QuotientIs(n: nat, d: nat, q: nat, r: nat)
    requires n == d * q + r && r < d
    ensures n / d == q
  {
    var x := n / d - q;
    AtLeastOnce(d, x);
    assert d * x == r - n % d;
  }

  function LittleAt(b: Bytes, i: nat, width: nat): nat
    requires i + width <= |b|
    decreases width
  {
    if width == 0 then 0 else b[i] + 256 * LittleAt(b, i + 1, width - 1)
  }

  lemma {:induction false} LittleRoundTrip(pre: Bytes, n: nat, width: nat, post: Bytes)
    requires n < Power256(width)
    ensures LittleAt(pre + LittleEndian(n, width) + post, |pre|, width) == n
    decreases width
  {
    if width > 0 {
      var low, rest := n % 256, LittleEndian(n / 256, width - 1);
      LittleRoundTrip(pre + [low], n / 256, width - 1, post);
      assert pre + LittleEndian(n, width) + post == (pre + [low]) + rest + post;
      assert (pre + LittleEndian(n, width) + post)[|pre|] == low;
    }
  }

  /** The type tags a value on the wire starts with. */
  const TAG_U8: Byte := 0x03
  const TAG_U32: Byte := 0x08
  const TAG_I64: Byte := 0x09
  const TAG_U64: Byte := 0x0A
  const TAG_STRUCT: Byte := 0x17

  // ---------- sets ----------

  lemma {:induction false} SubsetSize<T>(a: set<T>, b: set<T>)
    requires a <= b
    ensures |a| <= |b|
  {
    if a != {} {
      var x :| x in a;
      SubsetSize(a - {x}, b - {x});
    }
  }
}
