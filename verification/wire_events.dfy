/** Reported events on the wire: how a client's report is laid out, and parseRewardEvents
    (ctr_rewards.go:101-155, ctr_marketplace.go:215-225, services.go:93-117). */
module WireEvents {
  import opened Common
  import opened WireVarint
  import opened WireCodec
  import opened EconomyTypes

  const KEY_LIMIT: nat := 100

  /** An event as it is written: its values are key and number pairs in some order. */
  datatype Draft = Draft(name: Bytes, timestamp: nat, id: nat, entries: seq<(Bytes, nat)>)

  // ---------- struct buffers ----------

  /** bdWriter.structv: tag, tagged length, content. */
  function StructV(p: Bytes): Bytes
    requires |p| < 0x1_0000_0000
  {
    [TAG_STRUCT, TAG_U32] + LittleEndian(|p|, 4) + p
  }

  /** The struct buffer inside a task's arguments, after service, tag and task. */
  function StructPayload(b: Bytes): Option<Bytes> {
    if |b| < 9 || b[3] != TAG_STRUCT || b[4] != TAG_U32 then None else
      var n := LittleAt(b, 5, 4);
      if 9 + n > |b| then None else Some(b[9..9+n])
  }

  lemma StructRoundTrip(head: Bytes, p: Bytes, tail: Bytes)
    requires |head| == 3 && |p| < 0x1_0000_0000
    ensures StructPayload(head + StructV(p) + tail) == Some(p)
  {
    var b := head + StructV(p) + tail;
    assert b == (head + [TAG_STRUCT, TAG_U32]) + LittleEndian(|p|, 4) + (p + tail);
    LittleRoundTrip(head + [TAG_STRUCT, TAG_U32], |p|, 4, p + tail);
    assert b[3] == TAG_STRUCT && b[4] == TAG_U32;
    assert b[9..9+|p|] == p;
  }

  // ---------- writing events ----------

  function EntryParts(entry: (Bytes, nat)): seq<Part> { [Blob(1, entry.0), Num(2, entry.1)] }

  function EntriesParts(entries: seq<(Bytes, nat)>): seq<Part> {
    if entries == [] then [] else EntriesParts(entries[..|entries|-1]) + [Blob(3, PrintAll(EntryParts(entries[|entries|-1])))]
  }

  function DraftParts(d: Draft): seq<Part> {
    [Blob(1, d.name), Num(2, d.timestamp), Num(4, d.id)] + EntriesParts(d.entries)
  }

  function ReportParts(ds: seq<Draft>): seq<Part> {
    if ds == [] then [] else ReportParts(ds[..|ds|-1]) + [Blob(2, PrintAll(DraftParts(ds[|ds|-1])))]
  }

  // ---------- reading events ----------

  /** Key and value of one entry; later fields win, unknown ones are skipped. */
  function EntryOf(fields: seq<Field>): (Bytes, nat) {
    if fields == [] then ([], 0) else
      var before, f := EntryOf(fields[..|fields|-1]), fields[|fields|-1];
      if f.number == 1 then (f.data, before.1) else if f.number == 2 then (before.0, f.value) else before
  }

  /** One field of an event. A key must be new, not empty and not too long. */
  function Absorb(e: Event, f: Field): Option<Event> {
    if f.number == 1 then Some(e.(name := Text(f.data)))
    else if f.number == 2 then Some(e.(timestamp := f.value))
    else if f.number == 4 then Some(e.(id := f.value))
    else if f.number != 3 then Some(e)
    else
      var kv := EconomyProto(f.data);
      if kv.None? then None else
        var entry := EntryOf(kv.value);
        if entry.0 == [] || |entry.0| > KEY_LIMIT || Text(entry.0) in e.values then None
        else Some(e.(values := e.values[Text(entry.0) := entry.1]))
  }

  function EventOf(fields: seq<Field>): Option<Event> {
    if fields == [] then Some(Event("", 0, 0, map[])) else
      var before := EventOf(fields[..|fields|-1]);
      if before.None? then None else Absorb(before.value, fields[|fields|-1])
  }

  function EventsOf(fields: seq<Field>): Option<seq<Event>> {
    if fields == [] then Some([]) else
      var before, f := EventsOf(fields[..|fields|-1]), fields[|fields|-1];
      if before.None? then None
      else if f.number != 2 || f.wire != 2 then before
      else
        var parts := EconomyProto(f.data);
        if parts.None? then None else
          var e := EventOf(parts.value);
          if e.None? then None else Some(before.value + [e.value])
  }

  function ParseRewardEvents(payload: Bytes): Option<seq<Event>> {
    var sb := StructPayload(payload);
    if sb.None? then None else
      var fields := EconomyProto(sb.value);
      if fields.None? then None else EventsOf(fields.value)
  }

  // ---------- parsing undoes printing ----------

  function ValuesOf(entries: seq<(Bytes, nat)>): map<string, nat> {
    if entries == [] then map[] else ValuesOf(entries[..|entries|-1])[Text(entries[|entries|-1].0) := entries[|entries|-1].1]
  }

  function Meaning(d: Draft): Event { Event(Text(d.name), d.timestamp, d.id, ValuesOf(d.entries)) }

  function Meanings(ds: seq<Draft>): seq<Event> {
    if ds == [] then [] else Meanings(ds[..|ds|-1]) + [Meaning(ds[|ds|-1])]
  }

  /** Times, ids and values fit 64 bits. */
  ghost predicate NumbersFit(d: Draft) {
    d.timestamp < U64 && d.id < U64 && forall i :: 0 <= i < |d.entries| ==> d.entries[i].1 < U64
  }

  /** Distinct non-empty keys of at most 100 bytes. */
  ghost predicate KeysOk(entries: seq<(Bytes, nat)>) {
    && (forall i :: 0 <= i < |entries| ==> 1 <= |entries[i].0| <= 100)
    && (forall i, j :: 0 <= i < j < |entries| ==> entries[i].0 != entries[j].0)
  }

  /** An event has at most 4096 fields: its name, time and id, and one for each value. */
  ghost predicate DraftOk(d: Draft) { KeysOk(d.entries) && |d.entries| <= 4093 }

  /** What the first `k` entries of an event and the fields before them amount to. */
  ghost function Wanted(d: Draft, k: nat): Option<Event>
    requires k <= |d.entries|
  {
    if KeysOk(d.entries[..k]) then Some(Event(Text(d.name), d.timestamp, d.id, ValuesOf(d.entries[..k]))) else None
  }

  lemma KeysSnoc(entries: seq<(Bytes, nat)>, k: nat)
    requires k < |entries|
    ensures entries[..k+1][..k] == entries[..k]
    ensures KeysOk(entries[..k+1]) <==>
      KeysOk(entries[..k]) && 1 <= |entries[k].0| <= 100 && forall i :: 0 <= i < k ==> entries[i].0 != entries[k].0
  {
    var all := entries[..k+1];
    assert forall i :: 0 <= i < k ==> all[i] == entries[..k][i];
    assert all[k] == entries[k];
  }

  lemma {:induction false} PrintAllConcat(a: seq<Part>, b: seq<Part>)
    ensures PrintAll(a + b) == PrintAll(a) + PrintAll(b)
  {
    hide Print;
    if a == [] {
      assert a + b == b;
    } else {
      assert (a + b)[1..] == a[1..] + b;
      PrintAllConcat(a[1..], b);
    }
  }

  lemma {:induction false} ReadAllSnoc(a: seq<Part>, p: Part)
    ensures ReadAll(a + [p]) == ReadAll(a) + [Read(p)]
  {
    hide Read;
    if a == [] {
      assert [p][1..] == [] && a + [p] == [p];
    } else {
      assert (a + [p])[1..] == a[1..] + [p];
      ReadAllSnoc(a[1..], p);
    }
  }

  lemma SingleSize(p: Part)
    ensures PrintAll([p]) == Print(p)
  {
    assert [p][1..] == [];
    assert Print(p) + [] == Print(p);
  }

  /** A piece of a printed list is no longer than the whole. */
  lemma SnocSize(a: seq<Part>, p: Part)
    ensures |PrintAll(a + [p])| == |PrintAll(a)| + |Print(p)|
  {
    PrintAllConcat(a, [p]);
    SingleSize(p);
  }

  lemma EntryRoundTrip(entry: (Bytes, nat))
    requires entry.1 < U64 && |PrintAll(EntryParts(entry))| <= MAX_SIZE
    ensures EconomyProto(PrintAll(EntryParts(entry))).Some? && EntryOf(EconomyProto(PrintAll(EntryParts(entry))).value) == entry
  {
    var ps := EntryParts(entry);
    ProtoRoundTrip(ps);
    hide PrintAll, Print, EconomyProto;
    var f1, f2 := Read(ps[0]), Read(ps[1]);
    assert ps[1..] == [ps[1]] && ps[1..][1..] == [];
    assert ReadAll([ps[1]]) == [f2];
    assert ReadAll(ps) == [f1, f2];
    assert [f1, f2][..1] == [f1] && [f1][..0] == [];
    assert EntryOf([f1]) == (entry.0, 0);
  }

  lemma {:induction false} EntryKeys(entries: seq<(Bytes, nat)>, key: Bytes)
    ensures Text(key) in ValuesOf(entries) <==> exists i :: 0 <= i < |entries| && entries[i].0 == key
  {
    if entries != [] {
      if Text(key) == Text(entries[|entries|-1].0) { TextInjective(key, entries[|entries|-1].0); }
      EntryKeys(entries[..|entries|-1], key);
      if exists i :: 0 <= i < |entries|-1 && entries[i].0 == key {
        var i :| 0 <= i < |entries|-1 && entries[i].0 == key;
        assert entries[..|entries|-1][i].0 == key;
      }
    }
  }

  lemma HeadParts(d: Draft)
    ensures EventOf(ReadAll([Blob(1, d.name), Num(2, d.timestamp), Num(4, d.id)])) == Some(Event(Text(d.name), d.timestamp, d.id, map[]))
  {
    var a, b, c := Blob(1, d.name), Num(2, d.timestamp), Num(4, d.id);
    var q := [a, b, c];
    assert q[1..] == [b, c] && [b, c][1..] == [c] && [c][1..] == [];
    var f := [Read(a), Read(b), Read(c)];
    assert ReadAll([c]) == [Read(c)];
    assert ReadAll([b, c]) == [Read(b), Read(c)];
    assert ReadAll(q) == f;
    assert f[..2] == [Read(a), Read(b)] && f[..2][..1] == [Read(a)] && [Read(a)][..0] == [];
    assert EventOf([Read(a)]) == Some(Event(Text(d.name), 0, 0, map[]));
    assert EventOf(f[..2]) == Some(Event(Text(d.name), d.timestamp, 0, map[]));
  }

  function Headed(d: Draft, k: nat): seq<Part>
    requires k <= |d.entries|
  {
    [Blob(1, d.name), Num(2, d.timestamp), Num(4, d.id)] + EntriesParts(d.entries[..k])
  }

  ghost predicate AllWritable(ps: seq<Part>) { forall p :: p in ps ==> Writable(p) }

  lemma HeadedStart(d: Draft)
    requires NumbersFit(d)
    ensures EventOf(ReadAll(Headed(d, 0))) == Wanted(d, 0)
    ensures |Headed(d, 0)| == 3 && AllWritable(Headed(d, 0))
  {
    HeadParts(d);
    hide EventOf, ReadAll;
    assert Headed(d, 0) == [Blob(1, d.name), Num(2, d.timestamp), Num(4, d.id)];
  }

  lemma HeadedNext(d: Draft, k: nat)
    requires k < |d.entries|
    ensures Headed(d, k + 1) == Headed(d, k) + [Blob(3, PrintAll(EntryParts(d.entries[k])))]
  {
    hide PrintAll;
    assert d.entries[..k+1][..k] == d.entries[..k];
    assert EntriesParts(d.entries[..k+1]) == EntriesParts(d.entries[..k]) + [Blob(3, PrintAll(EntryParts(d.entries[k])))];
  }

  /** One more entry, once the entry alone and the fields before it are understood. */
  lemma EntryStep(d: Draft, k: nat, data: Bytes)
    requires k < |d.entries| && EventOf(ReadAll(Headed(d, k))) == Wanted(d, k)
    requires EconomyProto(data).Some? && EntryOf(EconomyProto(data).value) == d.entries[k]
    ensures EventOf(ReadAll(Headed(d, k) + [Blob(3, data)])) == Wanted(d, k + 1)
  {
    hide PrintAll, Print, EconomyProto, ReadAll, Headed, EntryOf, KeysOk;
    var fs := ReadAll(Headed(d, k));
    ReadAllSnoc(Headed(d, k), Blob(3, data));
    assert (fs + [Read(Blob(3, data))])[..|fs|] == fs;
    KeysSnoc(d.entries, k);
    EntryKeys(d.entries[..k], d.entries[k].0);
    assert forall i :: 0 <= i < k ==> d.entries[..k][i] == d.entries[i];
  }

  lemma {:induction false} EntriesRoundTrip(d: Draft, k: nat)
    requires NumbersFit(d) && k <= |d.entries| && |PrintAll(Headed(d, k))| <= MAX_SIZE
    ensures EventOf(ReadAll(Headed(d, k))) == Wanted(d, k)
    decreases k
  {
    hide *;
    if k == 0 {
      HeadedStart(d);
    } else {
      EntryFits(d, k - 1);
      EntriesRoundTrip(d, k - 1);
      HeadedNext(d, k - 1);
      EntryStep(d, k - 1, PrintAll(EntryParts(d.entries[k-1])));
    }
  }

  lemma WritableSnoc(ps: seq<Part>, p: Part)
    requires AllWritable(ps) && Writable(p)
    ensures AllWritable(ps + [p])
  {
    hide Writable;
  }

  lemma {:induction false} HeadedWritable(d: Draft, k: nat)
    requires NumbersFit(d) && k <= |d.entries| && |PrintAll(Headed(d, k))| <= MAX_SIZE
    ensures |Headed(d, k)| == k + 3 && AllWritable(Headed(d, k))
    decreases k
  {
    hide *;
    if k == 0 {
      HeadedStart(d);
    } else {
      EntryFits(d, k - 1);
      HeadedWritable(d, k - 1);
      HeadedNext(d, k - 1);
      WritableSnoc(Headed(d, k - 1), Blob(3, PrintAll(EntryParts(d.entries[k-1]))));
    }
  }

  lemma EntryFits(d: Draft, k: nat)
    requires NumbersFit(d) && k < |d.entries| && |PrintAll(Headed(d, k + 1))| <= MAX_SIZE
    ensures var data := PrintAll(EntryParts(d.entries[k]));
      && |PrintAll(Headed(d, k))| <= MAX_SIZE && Writable(Blob(3, data))
      && EconomyProto(data).Some? && EntryOf(EconomyProto(data).value) == d.entries[k]
  {
    hide PrintAll, Print, EconomyProto, ReadAll, Headed, EntryOf, EntryParts;
    var data := PrintAll(EntryParts(d.entries[k]));
    HeadedNext(d, k);
    SnocSize(Headed(d, k), Blob(3, data));
    PrintSizes(Blob(3, data));
    EntryRoundTrip(d.entries[k]);
  }

  /** What the server makes of one event's bytes: the event, or nothing. */
  function ReadDraft(data: Bytes): Option<Event> {
    var fields := EconomyProto(data);
    if fields.None? then None else EventOf(fields.value)
  }

  /** The server reads one event as it was meant, and refuses it exactly if a key is empty, too long or
      there twice, or there are too many values. */
  lemma DraftRoundTrip(d: Draft)
    requires NumbersFit(d) && |PrintAll(DraftParts(d))| <= MAX_SIZE
    ensures ReadDraft(PrintAll(DraftParts(d))) == if DraftOk(d) then Some(Meaning(d)) else None
  {
    assert d.entries[..|d.entries|] == d.entries;
    assert Headed(d, |d.entries|) == DraftParts(d);
    EntriesRoundTrip(d, |d.entries|);
    HeadedWritable(d, |d.entries|);
    hide PrintAll, EventOf, ReadAll, EconomyProto, KeysOk;
    ProtoRoundTrip(DraftParts(d));
  }

  ghost predicate AllOk(ds: seq<Draft>) { forall d :: d in ds ==> DraftOk(d) }

  ghost predicate AllFit(ds: seq<Draft>) { forall d :: d in ds ==> NumbersFit(d) }

  ghost function Understood(ds: seq<Draft>): Option<seq<Event>> { if AllOk(ds) then Some(Meanings(ds)) else None }

  lemma ReportStep(before: seq<Draft>, d: Draft, data: Bytes)
    requires EventsOf(ReadAll(ReportParts(before))) == Understood(before)
    requires ReadDraft(data) == if DraftOk(d) then Some(Meaning(d)) else None
    ensures EventsOf(ReadAll(ReportParts(before) + [Blob(2, data)])) ==
      if AllOk(before) && DraftOk(d) then Some(Meanings(before) + [Meaning(d)]) else None
  {
    hide PrintAll, Print, EconomyProto, ReadAll, EventOf, ReportParts, DraftOk, AllOk;
    var fs := ReadAll(ReportParts(before));
    ReadAllSnoc(ReportParts(before), Blob(2, data));
    assert (fs + [Read(Blob(2, data))])[..|fs|] == fs;
  }

  lemma {:induction false} ReportPartsOk(ds: seq<Draft>)
    ensures |ReportParts(ds)| == |ds| && forall p :: p in ReportParts(ds) ==> Writable(p)
  {
    if ds != [] { ReportPartsOk(ds[..|ds|-1]); }
    hide PrintAll, DraftParts;
  }

  lemma ReportSnoc(before: seq<Draft>, d: Draft)
    ensures ReportParts(before + [d]) == ReportParts(before) + [Blob(2, PrintAll(DraftParts(d)))]
    ensures Meanings(before + [d]) == Meanings(before) + [Meaning(d)]
  {
    assert (before + [d])[..|before|] == before;
    hide PrintAll, DraftParts, Meaning;
  }

  lemma AllSnoc(before: seq<Draft>, d: Draft)
    ensures AllOk(before + [d]) <==> AllOk(before) && DraftOk(d)
    ensures AllFit(before + [d]) <==> AllFit(before) && NumbersFit(d)
  {
    hide DraftOk, NumbersFit;
    assert forall x :: x in before + [d] <==> x in before || x == d;
  }

  lemma UnderstoodSnoc(before: seq<Draft>, d: Draft)
    ensures Understood(before + [d]) == if AllOk(before) && DraftOk(d) then Some(Meanings(before) + [Meaning(d)]) else None
  {
    AllSnoc(before, d);
    ReportSnoc(before, d);
    hide AllOk, DraftOk, Meanings, Meaning;
  }

  lemma ReportGrows(before: seq<Draft>, d: Draft)
    requires NumbersFit(d) && |PrintAll(ReportParts(before + [d]))| <= MAX_SIZE
    ensures |PrintAll(ReportParts(before))| <= MAX_SIZE
    ensures EventsOf(ReadAll(ReportParts(before))) == Understood(before) ==>
      EventsOf(ReadAll(ReportParts(before + [d]))) == Understood(before + [d])
  {
    hide *;
    var data := PrintAll(DraftParts(d));
    ReportSnoc(before, d);
    SnocSize(ReportParts(before), Blob(2, data));
    PrintSizes(Blob(2, data));
    DraftRoundTrip(d);
    UnderstoodSnoc(before, d);
    if EventsOf(ReadAll(ReportParts(before))) == Understood(before) { ReportStep(before, d, data); }
  }

  lemma SplitLast<T>(s: seq<T>)
    requires s != []
    ensures s == s[..|s|-1] + [s[|s|-1]]
  {
  }

  lemma NothingReported()
    ensures EventsOf(ReadAll(ReportParts([]))) == Understood([])
  {
    assert ReadAll([]) == [];
  }

  lemma {:induction false} ReportRoundTrip(ds: seq<Draft>)
    requires AllFit(ds) && |PrintAll(ReportParts(ds))| <= MAX_SIZE
    ensures EventsOf(ReadAll(ReportParts(ds))) == Understood(ds)
    decreases |ds|
  {
    hide *;
    if ds == [] {
      NothingReported();
    } else {
      var before, d := ds[..|ds|-1], ds[|ds|-1];
      SplitLast(ds);
      AllSnoc(before, d);
      ReportGrows(before, d);
      ReportRoundTrip(before);
    }
  }

  /** Parsing undoes printing, and accepts exactly what is within the limits. For every list of events
      whose numbers fit 64 bits, the payload that carries them, whatever stands around it, parses to the
      same events in order if there are at most 4096 of them in at most 1 MiB and in each the keys are
      distinct and of 1 to 100 bytes and at most 4093; otherwise the whole report is refused. */
  lemma ParseUndoesPrint(head: Bytes, ds: seq<Draft>, tail: Bytes)
    requires |head| == 3 && AllFit(ds) && |PrintAll(ReportParts(ds))| < 0x1_0000_0000
    ensures ParseRewardEvents(head + StructV(PrintAll(ReportParts(ds))) + tail) ==
      if |ds| <= 4096 && |PrintAll(ReportParts(ds))| <= 1048576 && (forall d :: d in ds ==> DraftOk(d)) then Some(Meanings(ds)) else None
  {
    var p := PrintAll(ReportParts(ds));
    StructRoundTrip(head, p, tail);
    if |p| <= MAX_SIZE { ReportRoundTrip(ds); }
    ReportPartsOk(ds);
    hide PrintAll, EventsOf, ReadAll, EconomyProto, StructPayload;
    ProtoRoundTrip(ReportParts(ds));
  }

  // ---------- the parsing loops ----------

  method ParseEntry(data: Bytes) returns (r: Option<(Bytes, nat)>)
    ensures r == (var kv := EconomyProto(data); if kv.None? then None else Some(EntryOf(kv.value)))
  {
    var kv := ParseProto(data);
    if kv.None? { return None; }
    var key: Bytes, value: nat := [], 0;
    for i := 0 to |kv.value|
      invariant (key, value) == EntryOf(kv.value[..i])
    {
      assert kv.value[..i+1][..i] == kv.value[..i];
      var k := kv.value[i];
      if k.number == 1 { key := k.data; } else if k.number == 2 { value := k.value; }
    }
    assert kv.value[..|kv.value|] == kv.value;
    r := Some((key, value));
  }

  method ParseEvent(parts: seq<Field>) returns (r: Option<Event>)
    ensures r == EventOf(parts)
  {
    var e := Event("", 0, 0, map[]);
    for i := 0 to |parts|
      invariant EventOf(parts[..i]) == Some(e)
    {
      assert parts[..i+1][..i] == parts[..i];
      var p := parts[i];
      EventStops(parts, i + 1);
      if p.number == 1 { e := e.(name := Text(p.data)); }
      else if p.number == 2 { e := e.(timestamp := p.value); }
      else if p.number == 4 { e := e.(id := p.value); }
      else if p.number == 3 {
        var kv := ParseEntry(p.data);
        if kv.None? { return None; }
        var key, value := kv.value.0, kv.value.1;
        if key == [] || |key| > KEY_LIMIT { return None; }
        if Text(key) in e.values { return None; }
        e := e.(values := e.values[Text(key) := value]);
      }
    }
    assert parts[..|parts|] == parts;
    r := Some(e);
  }

  /** ctr_rewards.go's parseRewardEvents, total on every byte string. */
  method ParseReport(payload: Bytes) returns (r: Option<seq<Event>>)
    ensures r == ParseRewardEvents(payload)
  {
    var sb := StructPayload(payload);
    if sb.None? { return None; }
    var fields := ParseProto(sb.value);
    if fields.None? { return None; }
    var out: seq<Event> := [];
    for i := 0 to |fields.value|
      invariant EventsOf(fields.value[..i]) == Some(out)
    {
      assert fields.value[..i+1][..i] == fields.value[..i];
      var f := fields.value[i];
      EventsStop(fields.value, i + 1);
      if f.number != 2 || f.wire != 2 { continue; }
      var parts := ParseProto(f.data);
      if parts.None? { return None; }
      var e := ParseEvent(parts.value);
      if e.None? { return None; }
      out := out + [e.value];
    }
    assert fields.value[..|fields.value|] == fields.value;
    r := Some(out);
  }

  lemma {:induction false} EventStops(parts: seq<Field>, i: nat)
    requires i <= |parts|
    ensures EventOf(parts[..i]).None? ==> EventOf(parts).None?
    decreases |parts|
  {
    if i < |parts| {
      EventStops(parts[..|parts|-1], i);
      assert parts[..|parts|-1][..i] == parts[..i];
      hide Absorb;
    } else {
      assert parts[..i] == parts;
    }
  }

  lemma {:induction false} EventsStop(fields: seq<Field>, i: nat)
    requires i <= |fields|
    ensures EventsOf(fields[..i]).None? ==> EventsOf(fields).None?
    decreases |fields|
  {
    if i < |fields| {
      EventsStop(fields[..|fields|-1], i);
      assert fields[..|fields|-1][..i] == fields[..i];
      hide EconomyProto, EventOf;
    } else {
      assert fields[..i] == fields;
    }
  }
}
