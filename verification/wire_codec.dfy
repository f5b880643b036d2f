/** Protobuf fields as the server writes and reads them (ctr_marketplace.go:60-76,
    ctr_rewards.go:58-100). The format is the Protocol Buffers Encoding specification, "Message
    Structure". */
module WireCodec {
  import opened Common
  import opened WireVarint

  const MAX_SIZE: nat := 0x10_0000
  const MAX_FIELDS: nat := 4096

  /** A field to be written: a number and a varint or bytes. */
  datatype Part = Num(number: nat, value: nat) | Blob(number: nat, data: Bytes)

  /** A field that was read. */
  datatype Field = Field(number: nat, wire: nat, value: nat, data: Bytes)

  /** The tag is one byte, cut to eight bits as the writers do. */
  function PbVarintField(number: nat, v: nat): Bytes { [number * 8 % 256] + Varint(v) }
  function PbBytesField(number: nat, p: Bytes): Bytes { [number * 8 % 256 + 2] + Varint(|p|) + p }

  function Print(p: Part): Bytes {
    match p
    case Num(n, v) => PbVarintField(n, v)
    case Blob(n, d) => PbBytesField(n, d)
  }

  function PrintAll(ps: seq<Part>): Bytes {
    if ps == [] then [] else Print(ps[0]) + PrintAll(ps[1..])
  }

  function Read(p: Part): Field {
    match p
    case Num(n, v) => Field(n, 0, v, [])
    case Blob(n, d) => Field(n, 2, 0, d)
  }

  predicate Writable(p: Part) {
    1 <= p.number <= 15 && (p.Num? ==> p.value < U64)
  }

  /** One field at `i`, and where it ends. */
  function ReadField(b: Bytes, i: nat): (r: Option<(Field, nat)>)
    ensures r.Some? ==> i < r.value.1 <= |b|
  {
    var tag := ReadVarint(b, i);
    if tag.None? || tag.value.0 / 8 == 0 then None else
      var number, wire, at := tag.value.0 / 8, tag.value.0 % 8, tag.value.1;
      var v := ReadVarint(b, at);
      if v.None? then None
      else if wire == 0 then Some((Field(number, 0, v.value.0, []), v.value.1))
      else if wire != 2 || v.value.0 > |b| - v.value.1 then None
      else Some((Field(number, 2, 0, b[v.value.1..v.value.1 + v.value.0]), v.value.1 + v.value.0))
  }

  /** The fields from `i` on, with `count` read before. */
  function FieldsFrom(b: Bytes, i: nat, count: nat): Option<seq<Field>>
    decreases |b| - i
  {
    if i >= |b| then Some([]) else
      var f := ReadField(b, i);
      if f.None? || count + 1 > MAX_FIELDS then None else
        var rest := FieldsFrom(b, f.value.1, count + 1);
        if rest.None? then None else Some([f.value.0] + rest.value)
  }

  function EconomyProto(b: Bytes): Option<seq<Field>> {
    if |b| > MAX_SIZE then None else FieldsFrom(b, 0, 0)
  }

  /** A one-byte tag reads back as itself. */
  lemma TagReads(pre: Bytes, tag: Byte, post: Bytes)
    requires tag < 128
    ensures ReadVarint(pre + [tag] + post, |pre|) == Some((tag, |pre| + 1))
  {
    assert (pre + [tag] + post)[|pre|] == tag;
  }

  lemma NumRoundTrip(pre: Bytes, n: nat, v: nat, post: Bytes)
    requires 1 <= n <= 15 && v < U64
    ensures ReadField(pre + PbVarintField(n, v) + post, |pre|) == Some((Field(n, 0, v, []), |pre| + |PbVarintField(n, v)|))
  {
    var b, tag := pre + PbVarintField(n, v) + post, n * 8;
    hide Varint, Uvarint;
    assert b == pre + [tag] + (Varint(v) + post);
    TagReads(pre, tag, Varint(v) + post);
    assert b == (pre + [tag]) + Varint(v) + post;
    VarintRoundTrip(pre + [tag], v, post);
    hide ReadVarint;
    assert tag / 8 == n && tag % 8 == 0;
  }

  lemma BlobRoundTrip(pre: Bytes, n: nat, d: Bytes, post: Bytes)
    requires 1 <= n <= 15 && |d| < U64
    ensures ReadField(pre + PbBytesField(n, d) + post, |pre|) == Some((Field(n, 2, 0, d), |pre| + |PbBytesField(n, d)|))
  {
    var b, tag := pre + PbBytesField(n, d) + post, n * 8 + 2;
    hide Varint, Uvarint;
    assert b == pre + [tag] + (Varint(|d|) + d + post);
    TagReads(pre, tag, Varint(|d|) + d + post);
    assert b == (pre + [tag]) + Varint(|d|) + (d + post);
    VarintRoundTrip(pre + [tag], |d|, d + post);
    hide ReadVarint;
    assert tag / 8 == n && tag % 8 == 2;
    var head := pre + [tag] + Varint(|d|);
    assert b == head + d + post;
    assert b[|head|..|head| + |d|] == d;
  }

  lemma FieldRoundTrip(pre: Bytes, p: Part, post: Bytes)
    requires Writable(p) && (p.Blob? ==> |p.data| < U64)
    ensures ReadField(pre + Print(p) + post, |pre|) == Some((Read(p), |pre| + |Print(p)|))
  {
    hide ReadField, PbVarintField, PbBytesField;
    match p
    case Num(n, v) => NumRoundTrip(pre, n, v, post);
    case Blob(n, d) => BlobRoundTrip(pre, n, d, post);
  }

  function ReadAll(ps: seq<Part>): seq<Field> {
    if ps == [] then [] else [Read(ps[0])] + ReadAll(ps[1..])
  }

  lemma {:induction false} FieldsRoundTrip(pre: Bytes, ps: seq<Part>, count: nat)
    requires (forall p :: p in ps ==> Writable(p)) && |pre| + |PrintAll(ps)| <= MAX_SIZE && count <= MAX_FIELDS
    ensures FieldsFrom(pre + PrintAll(ps), |pre|, count) == if count + |ps| <= MAX_FIELDS then Some(ReadAll(ps)) else None
    decreases |ps|
  {
    hide Writable, Read, ReadField, Print;
    var b := pre + PrintAll(ps);
    if ps != [] {
      var p, rest := ps[0], ps[1..];
      assert p in ps && forall q :: q in rest ==> q in ps;
      var head, tail := pre + Print(p), PrintAll(rest);
      assert PrintAll(ps) == Print(p) + tail;
      assert b == head + tail;
      PrintSizes(p);
      FieldRoundTrip(pre, p, tail);
      assert |head| + |tail| == |pre| + |PrintAll(ps)|;
      if count < MAX_FIELDS { FieldsRoundTrip(head, rest, count + 1); }
      hide PrintAll;
    }
  }

  lemma PrintSizes(p: Part)
    ensures |Print(p)| >= 1 && (p.Blob? ==> |p.data| < |Print(p)|)
  {
  }

  /** Parsing undoes printing for every list of fields numbered 1 to 15 within the limits, 1 MiB and
      4096 fields, and refuses it beyond either. */
  lemma ProtoRoundTrip(ps: seq<Part>)
    requires forall p :: p in ps ==> Writable(p)
    ensures EconomyProto(PrintAll(ps)) == if |PrintAll(ps)| <= 1048576 && |ps| <= 4096 then Some(ReadAll(ps)) else None
  {
    if |PrintAll(ps)| <= MAX_SIZE {
      FieldsRoundTrip([], ps, 0);
      assert [] + PrintAll(ps) == PrintAll(ps);
    }
  }

  /** A field reads back as written exactly when its number is from 1 to 15: the tag is one
      byte, so from 16 on it runs into the value or names another field. */
  lemma NumberRange(n: nat, v: nat)
    requires v < U64
    ensures EconomyProto(PbVarintField(n, v)) == Some([Field(n, 0, v, [])]) <==> 1 <= n <= 15
  {
    var b := PbVarintField(n, v);
    VarintShape(v);
    if 1 <= n <= 15 {
      var ps := [Num(n, v)];
      assert ps[1..] == [];
      assert PrintAll(ps) == b + [] == b;
      assert ReadAll(ps) == [Field(n, 0, v, [])];
      RoomAtStart();
      VarintSize(v, 0);
      ProtoRoundTrip(ps);
    } else {
      UvarintStops(b, 0, 0);
      var tag := ReadVarint(b, 0);
      hide Varint;
      if b[0] >= 128 && tag.Some? {
        var end := tag.value.1;
        assert forall j :: 1 <= j < |b| ==> b[j] == Varint(v)[j-1];
        assert ReadVarint(b, end) == None;
      } else if b[0] < 128 {
        assert tag == Some((b[0], 1));
        assert n == 0 || b[0] / 8 != n;
      }
      hide Uvarint;
      assert ReadField(b, 0).Some? ==> ReadField(b, 0).value.0.number != n;
      var all := EconomyProto(b);
      assert all.Some? ==> ReadField(b, 0).Some? && all.value[0] == ReadField(b, 0).value.0;
    }
  }

  /** The same for a field that holds bytes: beyond 15 the tag either names another field or
      swallows the length, and what is left for the data is too short. */
  lemma BytesNumberRange(n: nat, p: Bytes)
    ensures EconomyProto(PbBytesField(n, p)) == Some([Field(n, 2, 0, p)]) <==> 1 <= n <= 15 && |PbBytesField(n, p)| <= MAX_SIZE
  {
    var b := PbBytesField(n, p);
    if |b| <= MAX_SIZE {
      if 1 <= n <= 15 {
        var ps := [Blob(n, p)];
        assert ps[1..] == [] && PrintAll([]) == [] && ReadAll([]) == [];
        assert PrintAll(ps) == b + [] == b;
        assert ReadAll(ps) == [Field(n, 2, 0, p)];
        ProtoRoundTrip(ps);
      } else {
        LongTagMisreads(n, p);
        FirstField(b);
      }
    }
  }

  lemma FirstField(b: Bytes)
    requires b != []
    ensures var all := EconomyProto(b);
      all.Some? ==> ReadField(b, 0).Some? && all.value != [] && all.value[0] == ReadField(b, 0).value.0
  {
    hide ReadField;
  }

  lemma TagSwallowsLength(tag: Byte, p: Bytes)
    requires tag >= 128
    ensures var r := ReadVarint([tag] + Varint(|p|) + p, 0); r.Some? ==> r.value.1 > |Varint(|p|)|
  {
    var size := Varint(|p|);
    var b := [tag] + size + p;
    VarintShape(|p|);
    assert forall j :: 1 <= j <= |size| ==> b[j] == size[j-1];
    UvarintStops(b, 0, 0);
    hide Varint, Uvarint;
  }

  lemma LongTagMisreads(n: nat, p: Bytes)
    requires n == 0 || n > 15
    ensures var f := ReadField(PbBytesField(n, p), 0); f.Some? ==> f.value.0 != Field(n, 2, 0, p)
  {
    var b := PbBytesField(n, p);
    if b[0] < 128 {
      assert ReadVarint(b, 0) == Some((b[0], 1));
      assert b[0] / 8 == n % 32;
      hide ReadVarint;
    } else {
      TagSwallowsLength(b[0], p);
      hide ReadVarint, Varint;
    }
  }

  /** How parsing goes on after `done`. */
  function Rest(b: Bytes, i: nat, done: seq<Field>): Option<seq<Field>> {
    var rest := FieldsFrom(b, i, |done|);
    if rest.None? then None else Some(done + rest.value)
  }

  lemma Continues(b: Bytes, from: nat, done: seq<Field>, f: Field, i: nat)
    requires from < |b| && ReadField(b, from) == Some((f, i)) && |done| < MAX_FIELDS
    ensures Rest(b, from, done) == Rest(b, i, done + [f])
  {
    var rest := FieldsFrom(b, i, |done| + 1);
    if rest.Some? { assert done + ([f] + rest.value) == done + [f] + rest.value; }
  }

  lemma FullStops(b: Bytes, i: nat, done: seq<Field>)
    requires i < |b| && |done| >= MAX_FIELDS
    ensures Rest(b, i, done) == None
  {
  }

  lemma StartsEmpty(b: Bytes)
    requires |b| <= MAX_SIZE
    ensures EconomyProto(b) == Rest(b, 0, [])
  {
    assert forall q: seq<Field> :: [] + q == q;
  }

  /** ctr_rewards.go's economyProto: for every input the cursor stays inside it. */
  method ParseProto(b: Bytes) returns (r: Option<seq<Field>>)
    ensures r == EconomyProto(b)
  {
    if |b| > MAX_SIZE { return None; }
    var out: seq<Field> := [];
    var i := 0;
    StartsEmpty(b);
    while i < |b|
      invariant i <= |b| && |out| <= MAX_FIELDS
      invariant EconomyProto(b) == Rest(b, i, out)
      decreases |b| - i
    {
      ghost var from := i;
      var tag := DecodeVarint(b, i);
      if tag.None? || tag.value.0 / 8 == 0 { return None; }
      i := tag.value.1;
      var number, wire := tag.value.0 / 8, tag.value.0 % 8;
      if wire != 0 && wire != 2 { return None; }
      var v := DecodeVarint(b, i);
      if v.None? { return None; }
      if wire == 2 && v.value.0 > |b| - v.value.1 { return None; }
      var f: Field;
      if wire == 0 {
        f, i := Field(number, 0, v.value.0, []), v.value.1;
      } else {
        f, i := Field(number, 2, 0, b[v.value.1..v.value.1 + v.value.0]), v.value.1 + v.value.0;
      }
      hide ReadVarint;
      assert ReadField(b, from) == Some((f, i));
      hide ReadField;
      if |out| == MAX_FIELDS { FullStops(b, from, out); return None; }
      Continues(b, from, out, f, i);
      out := out + [f];
    }
    assert out + [] == out;
    r := Some(out);
  }
}
