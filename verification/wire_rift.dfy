/** The challenge rift configuration rewritten for a server that never expires it
    (riftdata.go:96-127). */
module RiftConfig {
  import opened Common
  import opened WireVarint
  import opened WireCodec

  const NEVER: nat := 0x7fff_ffff

  /** The value of field 5 found from `i` on, `hash` when there is none; only varints may occur. */
  function HashFrom(b: Bytes, i: nat, hash: nat): Option<nat>
    decreases |b| - i
  {
    if i >= |b| then Some(hash) else
      var key := ReadVarint(b, i);
      if key.None? || key.value.0 % 8 != 0 then None else
        var v := ReadVarint(b, key.value.1);
        if v.None? then None else HashFrom(b, v.value.1, if key.value.0 / 8 == 5 then v.value.0 else hash)
  }

  function Patched(number: nat, hash: nat): seq<Part> {
    [Num(1, number), Num(2, 0), Num(3, 0), Num(4, NEVER), Num(5, hash)]
  }

  function Patch(src: Bytes, number: nat): Option<Bytes> {
    var hash := HashFrom(src, 0, 0);
    if hash.None? then None else Some(PrintAll(Patched(number, hash.value)))
  }

  function LastHash(ps: seq<Part>, hash: nat): nat {
    if ps == [] then hash
    else LastHash(ps[1..], if ps[0].Num? && ps[0].number == 5 then ps[0].value else hash)
  }

  lemma HashStep(pre: Bytes, p: Part, post: Bytes, hash: nat)
    requires p.Num? && Writable(p)
    ensures HashFrom(pre + Print(p) + post, |pre|, hash)
      == HashFrom(pre + Print(p) + post, |pre + Print(p)|, if p.number == 5 then p.value else hash)
  {
    hide ReadVarint, Print;
    FieldRoundTrip(pre, p, post);
    assert ReadField(pre + Print(p) + post, |pre|) == Some((Field(p.number, 0, p.value, []), |pre| + |Print(p)|));
  }

  lemma PrintFirst(pre: Bytes, ps: seq<Part>)
    requires ps != []
    ensures pre + PrintAll(ps) == pre + Print(ps[0]) + PrintAll(ps[1..])
  {
    hide Print;
  }

  lemma {:induction false} HashRoundTrip(pre: Bytes, ps: seq<Part>, hash: nat)
    requires forall p :: p in ps ==> p.Num? && Writable(p)
    ensures HashFrom(pre + PrintAll(ps), |pre|, hash) == Some(LastHash(ps, hash))
    decreases |ps|
  {
    if ps != [] {
      var p, rest := ps[0], ps[1..];
      hide HashFrom, Print, Writable;
      PrintFirst(pre, ps);
      HashStep(pre, p, PrintAll(rest), hash);
      HashRoundTrip(pre + Print(p), rest, if p.number == 5 then p.value else hash);
    }
  }

  lemma {:induction false} HashFits(b: Bytes, i: nat, hash: nat)
    requires hash < U64
    ensures HashFrom(b, i, hash).Some? ==> HashFrom(b, i, hash).value < U64
    decreases |b| - i
  {
    if i < |b| {
      var key := ReadVarint(b, i);
      if key.Some? {
        var v := ReadVarint(b, key.value.1);
        UvarintFits(b, key.value.1, 0);
        RoomAtStart();
        if v.Some? { HashFits(b, v.value.1, if key.value.0 / 8 == 5 then v.value.0 else hash); }
      }
    }
  }

  lemma LastOfPatched(number: nat, hash: nat)
    ensures LastHash(Patched(number, hash), 0) == hash
  {
    var ps := Patched(number, hash);
    var p4, p3, p2, p1 := ps[4..], ps[3..], ps[2..], ps[1..];
    assert p4[1..] == [] && p3[1..] == p4 && p2[1..] == p3 && p1[1..] == p2;
    assert LastHash(p4, 0) == LastHash([], hash) == hash;
    assert LastHash(p3, 0) == LastHash(p4, 0);
    assert LastHash(p2, 0) == LastHash(p3, 0);
    assert LastHash(p1, 0) == LastHash(p2, 0);
  }

  /** Patching is stable: a patched configuration can be patched again, and the result is what
      patching the original would have given. So the hash survives, and only the hash. */
  lemma PatchTwice(src: Bytes, n: nat, m: nat)
    requires n < 0x1_0000_0000 && Patch(src, n).Some?
    ensures Patch(Patch(src, n).value, m) == Patch(src, m)
  {
    var hash := HashFrom(src, 0, 0).value;
    HashFits(src, 0, 0);
    var ps := Patched(n, hash);
    HashRoundTrip([], ps, 0);
    assert [] + PrintAll(ps) == PrintAll(ps);
    LastOfPatched(n, hash);
    hide PrintAll, HashFrom, LastHash;
  }

  // ---------- the patched bytes ----------

  /** Field `k` is the last one numbered 5; -1 when there is none. */
  predicate LastFive(ps: seq<Part>, k: int) {
    -1 <= k < |ps| && (k >= 0 ==> ps[k].number == 5) && forall j :: k < j < |ps| ==> ps[j].number != 5
  }

  lemma {:induction false} LastHashIs(ps: seq<Part>, k: int, hash: nat)
    requires (forall p :: p in ps ==> p.Num?) && LastFive(ps, k)
    ensures LastHash(ps, hash) == if k < 0 then hash else ps[k].value
  {
    if ps != [] {
      var rest := ps[1..];
      assert LastFive(rest, if k < 0 then -1 else k - 1) by {
        forall j | 0 <= j < |rest| && j > k - 1 ensures rest[j].number != 5 { assert rest[j] == ps[j+1]; }
      }
      LastHashIs(rest, if k < 0 then -1 else k - 1, if ps[0].number == 5 then ps[0].value else hash);
    }
  }

  lemma PatchedBytes(number: nat, hash: nat)
    ensures PrintAll(Patched(number, hash)) == [8] + Varint(number) + [16, 0, 24, 0, 32, 255, 255, 255, 255, 7, 40] + Varint(hash)
  {
    hide Varint, PrintAll;
    var ps := Patched(number, hash);
    var p4, p3, p2, p1 := ps[4..], ps[3..], ps[2..], ps[1..];
    assert p4[1..] == [] && p3[1..] == p4 && p2[1..] == p3 && p1[1..] == p2;
    assert ps[0] == Num(1, number) && p1[0] == Num(2, 0) && p2[0] == Num(3, 0) && p3[0] == Num(4, 0x7fff_ffff) && p4[0] == Num(5, hash);
    NeverBytes();
    SmallBytes();
    PrintNumber(ps, 1, number, p1);
    PrintNumber(p1, 2, 0, p2);
    PrintNumber(p2, 3, 0, p3);
    PrintNumber(p3, 4, 0x7fff_ffff, p4);
    PrintNumber(p4, 5, hash, []);
    PrintNothing();
  }

  lemma PrintNothing()
    ensures PrintAll([]) == []
  {
  }

  lemma PrintNumber(ps: seq<Part>, number: nat, value: nat, rest: seq<Part>)
    requires ps != [] && ps[0] == Num(number, value) && ps[1..] == rest && 1 <= number <= 15
    ensures PrintAll(ps) == [number * 8] + Varint(value) + PrintAll(rest)
  {
    hide Varint;
  }

  lemma SmallBytes()
    ensures Varint(0) == [0]
  {
  }

  lemma NeverBytes()
    ensures Varint(0x7fff_ffff) == [255, 255, 255, 255, 7]
  {
    assert Varint(7) == [7];
    assert Varint(1023) == [255] + Varint(7);
    assert Varint(131071) == [255] + Varint(1023);
    assert Varint(16777215) == [255] + Varint(131071);
  }

  /** A configuration of number fields is rewritten to exactly these bytes: the new number, two zeros,
      an end that never comes, and the value of the last field 5, or 0 where there is none. */
  lemma PatchIs(ps: seq<Part>, k: int, number: nat)
    requires (forall p :: p in ps ==> p.Num? && Writable(p)) && LastFive(ps, k)
    ensures Patch(PrintAll(ps), number) == Some(
      [8] + Varint(number) + [16, 0, 24, 0, 32, 255, 255, 255, 255, 7, 40] + Varint(if k < 0 then 0 else ps[k].value))
  {
    HashRoundTrip([], ps, 0);
    assert [] + PrintAll(ps) == PrintAll(ps);
    LastHashIs(ps, k, 0);
    PatchedBytes(number, LastHash(ps, 0));
    hide PrintAll, HashFrom, LastHash, Varint, Patched;
  }

  lemma {:induction false} BlobStops(pre: Bytes, ps: seq<Part>, hash: nat)
    requires (forall p :: p in ps ==> Writable(p)) && exists p :: p in ps && p.Blob?
    ensures HashFrom(pre + PrintAll(ps), |pre|, hash) == None
    decreases |ps|
  {
    var p, rest := ps[0], ps[1..];
    hide Writable, Print;
    PrintFirst(pre, ps);
    if p.Num? {
      assert forall q :: q in ps ==> q == p || q in rest;
      HashStep(pre, p, PrintAll(rest), hash);
      hide HashFrom;
      BlobStops(pre + Print(p), rest, if p.number == 5 then p.value else hash);
    } else {
      StopsHere(pre, p, PrintAll(rest), hash);
    }
  }

  lemma StopsHere(pre: Bytes, p: Part, post: Bytes, hash: nat)
    requires Writable(p) && p.Blob?
    ensures HashFrom(pre + Print(p) + post, |pre|, hash) == None
  {
    var tag := p.number * 8 + 2;
    var rest := Varint(|p.data|) + p.data + post;
    assert pre + Print(p) + post == pre + [tag] + rest;
    TagReads(pre, tag, rest);
    hide Varint, ReadVarint;
    assert tag % 8 == 2;
  }

  /** A configuration with a field of bytes anywhere in it is refused. */
  lemma BytesRefused(ps: seq<Part>, number: nat)
    requires (forall p :: p in ps ==> Writable(p)) && exists p :: p in ps && p.Blob?
    ensures Patch(PrintAll(ps), number) == None
  {
    BlobStops([], ps, 0);
    assert [] + PrintAll(ps) == PrintAll(ps);
    hide PrintAll, HashFrom;
  }

  method PatchChallengeConfig(src: Bytes, number: nat) returns (r: Option<Bytes>)
    requires number < 0x1_0000_0000
    ensures r == Patch(src, number)
  {
    var hash, i := 0, 0;
    while i < |src|
      invariant i <= |src| && HashFrom(src, 0, 0) == HashFrom(src, i, hash)
      decreases |src| - i
    {
      var key := DecodeVarint(src, i);
      if key.None? || key.value.0 % 8 != 0 { return None; }
      var v := DecodeVarint(src, key.value.1);
      if v.None? { return None; }
      hide ReadVarint;
      if key.value.0 / 8 == 5 { hash := v.value.0; }
      i := v.value.1;
    }
    hide HashFrom;
    var out := WriteNumbers(Patched(number, hash));
    r := Some(out);
  }

  /** The loop that appends tag and value of each field. */
  method WriteNumbers(fields: seq<Part>) returns (out: Bytes)
    requires forall p :: p in fields ==> p.Num? && 1 <= p.number <= 15
    ensures out == PrintAll(fields)
  {
    hide PrintAll, Varint;
    out := [];
    AppendNone(fields);
    for k := 0 to |fields|
      invariant out + PrintAll(fields[k..]) == PrintAll(fields)
    {
      var p := fields[k];
      AppendOne(out, fields, k);
      out := AppendVarint(out + [p.number * 8], p.value);
    }
    assert out + [] == out;
  }

  lemma AppendNone(fields: seq<Part>)
    ensures [] + PrintAll(fields[0..]) == PrintAll(fields) && PrintAll(fields[|fields|..]) == []
  {
    assert fields[0..] == fields;
  }

  lemma AppendOne(out: Bytes, fields: seq<Part>, k: nat)
    requires k < |fields| && fields[k].Num? && 1 <= fields[k].number <= 15
    ensures out + PrintAll(fields[k..]) == out + [fields[k].number * 8] + Varint(fields[k].value) + PrintAll(fields[k+1..])
  {
    hide Varint;
    assert fields[k..][1..] == fields[k+1..];
    var p, rest := fields[k], PrintAll(fields[k+1..]);
    assert out + (Print(p) + rest) == out + [p.number * 8] + Varint(p.value) + rest;
  }
}
