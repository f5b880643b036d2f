/** Base 128 varints (services.go:119-125, riftdata.go:88-94). The format is the Protocol Buffers
    Encoding specification, "Base 128 Varints". */
module WireVarint {
  import opened Common

  function Varint(v: nat): Bytes {
    if v < 128 then [v] else [v % 128 + 128] + Varint(v / 128)
  }

  /** The value from the k-th byte on of the varint at `i`, and where it ends. Ten bytes at
      most, the tenth at most 1. */
  function Uvarint(b: Bytes, i: nat, k: nat): Option<(nat, nat)>
    decreases 10 - k
  {
    if k >= 10 || i + k >= |b| then None
    else if b[i+k] < 128 then (if k == 9 && b[i+k] > 1 then None else Some((b[i+k], i + k + 1)))
    else
      var rest := Uvarint(b, i, k + 1);
      if rest.None? then None else Some((b[i+k] - 128 + 128 * rest.value.0, rest.value.1))
  }

  function ReadVarint(b: Bytes, i: nat): (r: Option<(nat, nat)>)
    ensures r.Some? ==> i < r.value.1 <= |b|
  {
    UvarintEnds(b, i, 0);
    Uvarint(b, i, 0)
  }

  lemma {:induction false} UvarintEnds(b: Bytes, i: nat, k: nat)
    ensures Uvarint(b, i, k).Some? ==> i + k < Uvarint(b, i, k).value.1 <= |b| && Uvarint(b, i, k).value.1 <= i + 10
    decreases 10 - k
  {
    if k < 10 { UvarintEnds(b, i, k + 1); }
  }

  /** Values that fit from the k-th byte on. */
  function Room(k: nat): nat
    requires k <= 9
    decreases 9 - k
  {
    if k == 9 then 2 else 128 * Room(k + 1)
  }

  lemma RoomAtStart()
    ensures Room(0) == U64
  {
    assert Room(7) == 128 * 128 * 2 && Room(5) == 128 * 128 * Room(7) && Room(3) == 128 * 128 * Room(5);
    assert Room(1) == 128 * 128 * Room(3);
  }

  lemma {:induction false} VarintReads(pre: Bytes, v: nat, post: Bytes, k: nat, head: nat)
    requires k <= 9 && v < Room(k) && head + k == |pre|
    ensures Uvarint(pre + Varint(v) + post, head, k) == Some((v, |pre| + |Varint(v)|))
    decreases 9 - k
  {
    var b := pre + Varint(v) + post;
    if v < 128 {
      assert Varint(v) == [v];
      assert b[head + k] == v;
    } else {
      var c, rest := v % 128 + 128, Varint(v / 128);
      assert k < 9;
      VarintReads(pre + [c], v / 128, post, k + 1, head);
      assert Varint(v) == [c] + rest;
      assert b[head + k] == c;
      hide Varint, Room;
      Regroup(pre, c, rest, post);
    }
  }

  lemma Regroup(pre: Bytes, c: Byte, rest: Bytes, post: Bytes)
    ensures (pre + [c]) + rest + post == pre + ([c] + rest) + post
  {
  }

  /** Reading undoes writing, wherever the varint stands. */
  lemma VarintRoundTrip(pre: Bytes, v: nat, post: Bytes)
    requires v < U64
    ensures ReadVarint(pre + Varint(v) + post, |pre|) == Some((v, |pre| + |Varint(v)|))
  {
    RoomAtStart();
    VarintReads(pre, v, post, 0, |pre|);
  }

  /** Whatever is read fits 64 bits. */
  lemma {:induction false} UvarintFits(b: Bytes, i: nat, k: nat)
    requires k <= 9
    ensures Uvarint(b, i, k).Some? ==> Uvarint(b, i, k).value.0 < Room(k)
    decreases 9 - k
  {
    if k < 9 { UvarintFits(b, i, k + 1); RoomPositive(k + 1); }
  }

  lemma {:induction false} RoomPositive(k: nat)
    requires k <= 9
    ensures Room(k) >= 2
    decreases 9 - k
  {
    if k < 9 { RoomPositive(k + 1); }
  }

  /** services.go's appendVarint. */
  method AppendVarint(b: Bytes, v: nat) returns (out: Bytes)
    ensures out == b + Varint(v)
  {
    out := b;
    var rest := v;
    while rest >= 0x80
      invariant out + Varint(rest) == b + Varint(v)
    {
      assert out + ([rest % 128 + 128] + Varint(rest / 128)) == out + [rest % 128 + 128] + Varint(rest / 128);
      out := out + [rest % 128 + 128];
      rest := rest / 128;
    }
    out := out + [rest];
  }

  /** The loop of binary.Uvarint behind riftdata.go's readVarint. */
  method DecodeVarint(b: Bytes, i: nat) returns (r: Option<(nat, nat)>)
    ensures r == ReadVarint(b, i)
  {
    hide Uvarint, Shift, Lift;
    var x: nat, k: nat := 0, 0;
    LiftStart(Uvarint(b, i, 0));
    while i + k < |b|
      invariant k <= 10
      invariant Uvarint(b, i, 0) == Lift(x, k, Uvarint(b, i, k))
      decreases |b| - k
    {
      DecodeStep(b, i, x, k);
      if k == 10 { return None; }
      var c := b[i+k];
      if c < 128 {
        if k == 9 && c > 1 { return None; }
        return Some((x + Shift(c, k), i + k + 1));
      }
      x := x + Shift(c - 128, k);
      k := k + 1;
    }
    DecodeStep(b, i, x, k);
    r := None;
  }

  lemma DecodeStep(b: Bytes, i: nat, x: nat, k: nat)
    requires k <= 10
    ensures var rest := Lift(x, k, Uvarint(b, i, k));
      if k == 10 || i + k >= |b| then rest == None
      else if b[i+k] < 128 then rest == (if k == 9 && b[i+k] > 1 then None else Some((x + Shift(b[i+k], k), i + k + 1)))
      else rest == Lift(x + Shift(b[i+k] - 128, k), k + 1, Uvarint(b, i, k + 1))
  {
    if k < 10 && i + k < |b| && b[i+k] >= 128 {
      LiftMore(x, k, b[i+k] - 128, Uvarint(b, i, k + 1));
      hide Shift, Lift;
    }
  }

  /** `digit << 7*k`. */
  function Shift(digit: nat, k: nat): nat { if k == 0 then digit else 128 * Shift(digit, k - 1) }

  /** The value of a varint whose first `k` bytes have been added up to `x`. */
  function Lift(x: nat, k: nat, rest: Option<(nat, nat)>): Option<(nat, nat)> {
    if rest.None? then None else Some((x + Shift(rest.value.0, k), rest.value.1))
  }

  lemma LiftStart(rest: Option<(nat, nat)>)
    ensures Lift(0, 0, rest) == rest
  {
  }

  lemma LiftMore(x: nat, k: nat, low: nat, rest: Option<(nat, nat)>)
    ensures Lift(x, k, if rest.None? then None else Some((low + 128 * rest.value.0, rest.value.1)))
      == Lift(x + Shift(low, k), k + 1, rest)
  {
    if rest.Some? { ShiftMore(low, rest.value.0, k); }
  }

  lemma {:induction false} ShiftMore(low: nat, high: nat, k: nat)
    ensures Shift(low + 128 * high, k) == Shift(low, k) + Shift(high, k + 1)
  {
    if k > 0 { ShiftMore(low, high, k - 1); }
  }

  lemma {:induction false} UvarintStops(b: Bytes, i: nat, k: nat)
    ensures Uvarint(b, i, k).Some? ==>
      var end := Uvarint(b, i, k).value.1;
      i + k < end <= |b| && b[end-1] < 128 && forall j :: i + k <= j < end - 1 ==> b[j] >= 128
    decreases 10 - k
  {
    if k < 10 { UvarintStops(b, i, k + 1); }
  }

  lemma {:induction false} VarintShape(v: nat)
    ensures |Varint(v)| >= 1 && Varint(v)[|Varint(v)|-1] < 128 && forall j :: 0 <= j < |Varint(v)| - 1 ==> Varint(v)[j] >= 128
  {
    if v >= 128 { VarintShape(v / 128); }
  }

  lemma {:induction false} VarintSize(v: nat, k: nat)
    requires k <= 9 && v < Room(k)
    ensures |Varint(v)| <= 10 - k
    decreases 9 - k
  {
    if v >= 128 { VarintSize(v / 128, k + 1); }
  }

  // ---------- the bytes themselves ----------

  /** What the bytes say: seven bits each, the lowest first. */
  function Weigh(b: Bytes): nat { if b == [] then 0 else b[0] % 128 + 128 * Weigh(b[1..]) }

  /** The varint of a value is its seven-bit groups, lowest first, with the high bit set on all but the
      last, and no longer than it has to be. */
  lemma {:induction false} VarintGroups(v: nat)
    ensures var b := Varint(v);
      && Weigh(b) == v && b != []
      && (forall j :: 0 <= j < |b| ==> (b[j] >= 128 <==> j < |b| - 1))
      && (|b| > 1 ==> b[|b|-1] != 0)
  {
    var b := Varint(v);
    if v >= 128 {
      VarintGroups(v / 128);
      assert b[1..] == Varint(v / 128);
      forall j | 0 <= j < |b| ensures b[j] >= 128 <==> j < |b| - 1 {
        if j > 0 { assert b[j] == b[1..][j-1]; }
      }
      if v / 128 < 128 { assert Varint(v / 128) == [v / 128]; }
    } else {
      assert b[1..] == [];
    }
  }
}
