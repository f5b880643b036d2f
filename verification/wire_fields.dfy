/** What reported fields mean in whatever order, number and repetition a client sends them
    (ctr_rewards.go:110-154). */
module WireFields {
  import opened Common
  import opened WireCodec
  import opened EconomyTypes
  import opened WireEvents

  /** Field `k` is the last one of this number; -1 when there is none. */
  predicate Last(fields: seq<Field>, number: nat, k: int) {
    -1 <= k < |fields| && (k >= 0 ==> fields[k].number == number) && forall j :: k < j < |fields| ==> fields[j].number != number
  }

  function DataAt(fields: seq<Field>, k: int): Bytes
    requires -1 <= k < |fields|
  {
    if k < 0 then [] else fields[k].data
  }

  function ValueAt(fields: seq<Field>, k: int): nat
    requires -1 <= k < |fields|
  {
    if k < 0 then 0 else fields[k].value
  }

  /** The last field is field `k`, or the fields before it have the same last one. */
  lemma LastFront(fields: seq<Field>, number: nat, k: int)
    requires fields != [] && Last(fields, number, k)
    ensures if fields[|fields|-1].number == number then k == |fields| - 1
      else k < |fields| - 1 && Last(fields[..|fields|-1], number, k)
  {
    assert k < |fields| - 1 ==> fields[|fields|-1].number != number;
  }

  /** Of one value's fields the last 1 is its key, empty when there is none, and the last 2 its value,
      or 0; all others are skipped. */
  lemma {:induction false} EntryIs(fields: seq<Field>, k: int, v: int)
    requires Last(fields, 1, k) && Last(fields, 2, v)
    ensures EntryOf(fields) == (DataAt(fields, k), ValueAt(fields, v))
    decreases |fields|
  {
    if fields != [] {
      var front, n := fields[..|fields|-1], fields[|fields|-1].number;
      LastFront(fields, 1, k);
      LastFront(fields, 2, v);
      hide Last;
      var k', v' := if n == 1 then LastOf(front, 1) else k, if n == 2 then LastOf(front, 2) else v;
      EntryIs(front, k', v');
    }
  }

  /** There always is a last one. */
  ghost function LastOf(fields: seq<Field>, number: nat): (k: int)
    ensures Last(fields, number, k)
    decreases |fields|
  {
    if fields == [] then -1
    else if fields[|fields|-1].number == number then |fields| - 1
    else LastOf(fields[..|fields|-1], number)
  }

  // ---------- one event ----------

  /** Field 3 number `k` is readable and its key is of 1 to 100 bytes. */
  predicate ValueOk(f: Field) {
    EconomyProto(f.data).Some? && 1 <= |EntryOf(EconomyProto(f.data).value).0| <= 100
  }

  function KeyOf(f: Field): string
    requires EconomyProto(f.data).Some?
  {
    Text(EntryOf(EconomyProto(f.data).value).0)
  }

  function NumberOf(f: Field): nat
    requires EconomyProto(f.data).Some?
  {
    EntryOf(EconomyProto(f.data).value).1
  }

  /** All values are readable and no two have the same key. */
  ghost predicate ValuesOk(fields: seq<Field>) {
    && (forall i :: 0 <= i < |fields| && fields[i].number == 3 ==> ValueOk(fields[i]))
    && (forall i, j :: 0 <= i < j < |fields| && fields[i].number == 3 && fields[j].number == 3 ==> KeyOf(fields[i]) != KeyOf(fields[j]))
  }

  /** The map holds the values the fields give, and no others. */
  ghost predicate Holds(values: map<string, nat>, fields: seq<Field>)
    requires ValuesOk(fields)
  {
    && (forall i :: 0 <= i < |fields| && fields[i].number == 3 ==> KeyOf(fields[i]) in values && values[KeyOf(fields[i])] == NumberOf(fields[i]))
    && (forall key :: key in values ==> exists i :: 0 <= i < |fields| && fields[i].number == 3 && KeyOf(fields[i]) == key)
  }

  /** The key of a further value `f` is not among the keys so far. */
  ghost predicate NewKey(front: seq<Field>, f: Field)
    requires ValueOk(f)
  {
    forall i :: 0 <= i < |front| && front[i].number == 3 && ValueOk(front[i]) ==> KeyOf(front[i]) != KeyOf(f)
  }

  lemma ValuesSnoc(front: seq<Field>, f: Field)
    ensures ValuesOk(front + [f]) <==> ValuesOk(front) && (f.number == 3 ==> ValueOk(f) && NewKey(front, f))
  {
    hide ValueOk, KeyOf;
    var fields := front + [f];
    assert forall i :: 0 <= i < |front| ==> fields[i] == front[i];
    assert fields[|front|] == f;
    if ValuesOk(fields) {
      forall i | 0 <= i < |front| && front[i].number == 3 ensures ValueOk(front[i]) { assert ValueOk(fields[i]); }
    }
  }

  lemma HoldsSnoc(values: map<string, nat>, front: seq<Field>, f: Field)
    requires ValuesOk(front) && ValuesOk(front + [f]) && Holds(values, front) && (f.number == 3 ==> ValueOk(f))
    ensures Holds(if f.number == 3 then values[KeyOf(f) := NumberOf(f)] else values, front + [f])
  {
    hide ValueOk, KeyOf, NumberOf;
    var fields := front + [f];
    assert forall i :: 0 <= i < |front| ==> fields[i] == front[i];
    assert fields[|front|] == f;
  }

  lemma EventSnoc(front: seq<Field>, f: Field)
    ensures EventOf(front + [f]) == if EventOf(front).None? then None else Absorb(EventOf(front).value, f)
  {
    assert (front + [f])[..|front|] == front;
    hide Absorb;
  }

  lemma AbsorbIs(e: Event, f: Field)
    ensures Absorb(e, f).Some? <==> f.number == 3 ==> ValueOk(f) && KeyOf(f) !in e.values
    ensures Absorb(e, f).Some? ==>
      var a := Absorb(e, f).value;
      && a.name == (if f.number == 1 then Text(f.data) else e.name)
      && a.timestamp == (if f.number == 2 then f.value else e.timestamp) && a.id == (if f.number == 4 then f.value else e.id)
      && a.values == if f.number == 3 then e.values[KeyOf(f) := NumberOf(f)] else e.values
  {
    hide EconomyProto, EntryOf;
  }

  lemma KeyIsNew(values: map<string, nat>, front: seq<Field>, f: Field)
    requires ValuesOk(front) && Holds(values, front) && ValueOk(f)
    ensures NewKey(front, f) <==> KeyOf(f) !in values
  {
    hide ValueOk, KeyOf, NumberOf;
  }

  /** An event is understood exactly if each of its values is readable with a key of 1 to 100 bytes and
      no key comes twice; it then holds those values and no others. */
  lemma {:induction false} EventValues(fields: seq<Field>)
    ensures EventOf(fields).Some? <==> ValuesOk(fields)
    ensures EventOf(fields).Some? ==> Holds(EventOf(fields).value.values, fields)
    decreases |fields|
  {
    if fields != [] {
      hide *;
      var front, f := fields[..|fields|-1], fields[|fields|-1];
      SplitLast(fields);
      EventValues(front);
      EventSnoc(front, f);
      ValuesSnoc(front, f);
      if EventOf(front).Some? {
        var e := EventOf(front).value;
        AbsorbIs(e, f);
        if ValueOk(f) { KeyIsNew(e.values, front, f); }
        if EventOf(fields).Some? { HoldsSnoc(e.values, front, f); }
      }
    }
  }

  /** Its name, time and id are the last ones given. */
  lemma {:induction false} EventHead(fields: seq<Field>, n: int, t: int, d: int)
    requires Last(fields, 1, n) && Last(fields, 2, t) && Last(fields, 4, d) && EventOf(fields).Some?
    ensures var e := EventOf(fields).value;
      e.name == Text(DataAt(fields, n)) && e.timestamp == ValueAt(fields, t) && e.id == ValueAt(fields, d)
    decreases |fields|
  {
    if fields != [] {
      var front, f := fields[..|fields|-1], fields[|fields|-1];
      SplitLast(fields);
      EventSnoc(front, f);
      LastFront(fields, 1, n);
      LastFront(fields, 2, t);
      LastFront(fields, 4, d);
      hide EventOf, Absorb, Last, LastOf, ValueOk, KeyOf, NumberOf;
      AbsorbIs(EventOf(front).value, f);
      EventHead(front, if f.number == 1 then LastOf(front, 1) else n, if f.number == 2 then LastOf(front, 2) else t,
        if f.number == 4 then LastOf(front, 4) else d);
    }
  }

  // ---------- a report ----------

  /** The bytes of the events in a report: fields 2 of wire type 2; all others are skipped. */
  function EventBytes(fields: seq<Field>): seq<Bytes> {
    if fields == [] then []
    else (if fields[0].number == 2 && fields[0].wire == 2 then [fields[0].data] else []) + EventBytes(fields[1..])
  }

  lemma {:induction false} EventBytesSnoc(front: seq<Field>, f: Field)
    ensures EventBytes(front + [f]) == EventBytes(front) + if f.number == 2 && f.wire == 2 then [f.data] else []
  {
    if front == [] {
      assert [] + [f] == [f] && [f][1..] == [];
    } else {
      assert (front + [f])[1..] == front[1..] + [f];
      EventBytesSnoc(front[1..], f);
    }
  }

  lemma EventsSnoc(front: seq<Field>, f: Field)
    ensures EventsOf(front + [f]) ==
      if EventsOf(front).None? || f.number != 2 || f.wire != 2 then EventsOf(front)
      else if ReadDraft(f.data).None? then None else Some(EventsOf(front).value + [ReadDraft(f.data).value])
  {
    assert (front + [f])[..|front|] == front;
    hide EventOf, EconomyProto;
  }

  ghost predicate Readable(bytes: seq<Bytes>) { forall i :: 0 <= i < |bytes| ==> ReadDraft(bytes[i]).Some? }

  ghost predicate Reads(bytes: seq<Bytes>, events: seq<Event>) {
    |events| == |bytes| && forall i :: 0 <= i < |bytes| ==> ReadDraft(bytes[i]) == Some(events[i])
  }

  lemma OneMoreRead(bytes: seq<Bytes>, events: seq<Event>, b: Bytes)
    ensures Readable(bytes + [b]) <==> Readable(bytes) && ReadDraft(b).Some?
    ensures Reads(bytes, events) && ReadDraft(b).Some? ==> Reads(bytes + [b], events + [ReadDraft(b).value])
  {
    hide ReadDraft;
    var all := bytes + [b];
    assert all[|bytes|] == b && forall i :: 0 <= i < |bytes| ==> all[i] == bytes[i];
  }

  /** A report is accepted exactly if every event in it is understood, and gives them in order. */
  lemma {:induction false} EventsAre(fields: seq<Field>)
    ensures EventsOf(fields).Some? <==> Readable(EventBytes(fields))
    ensures EventsOf(fields).Some? ==> Reads(EventBytes(fields), EventsOf(fields).value)
    decreases |fields|
  {
    if fields != [] {
      var front, f := fields[..|fields|-1], fields[|fields|-1];
      SplitLast(fields);
      EventsAre(front);
      EventsSnoc(front, f);
      EventBytesSnoc(front, f);
      hide EventsOf, EventBytes, ReadDraft, Readable, Reads;
      assert EventBytes(front) + [] == EventBytes(front);
      OneMoreRead(EventBytes(front), if EventsOf(front).Some? then EventsOf(front).value else [], f.data);
    }
  }
}
