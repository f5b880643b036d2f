/** Which events move a challenge, told from their values (ctr_challenge_rules.go:78-197). */
module ChallengeEvents {
  import opened Common
  import opened EconomyTypes
  import opened Challenges
  import opened ChallengeProgress

  // ---------- what an event needs ----------

  /** The two rules about times: less is better, and nothing is no time. */
  predicate TimeRule(r: Rule) { r.name == "finish_TRACKNAME_in_less_than_X_min" || r.name == "do_a_lap_under_X_in_TRACKNAME" }

  predicate Filtered(p: Period, e: Event) { forall f :: f in p.filters ==> f in e.values && e.values[f] in p.filters[f] }

  /** There is no threshold, or the value is there and reaches it. */
  predicate Reaches(threshold: real, e: Event, key: string) {
    threshold != 0.0 ==> key in e.values && e.values[key] as real >= threshold
  }

  /** There is no threshold, or the value is there, is a time, and stays below it. */
  predicate Undercuts(threshold: real, e: Event, key: string) {
    threshold != 0.0 ==> key in e.values && e.values[key] > 0 && (e.values[key] as real) < threshold
  }

  /** What the event is worth: a visit counts its value, everything else its progress. */
  function Worth(r: Rule, e: Event): nat {
    var key := if r.name == "visit_pit_stop" then "value" else "Progress";
    if key in e.values then e.values[key] else 0
  }

  /** The event is of the rule's name, inside the window and not ahead of the clock by more than five
      minutes, passes the filters and both thresholds, and is worth something. */
  predicate Moves(r: Rule, slot: Slot, e: Event, now: nat) {
    && e.name == r.name && slot.start <= e.timestamp < slot.end && e.timestamp * 1_000_000_000 <= now + 300_000_000_000
    && Filtered(slot.period, e)
    && (if TimeRule(r) then Undercuts(slot.period.x, e, "X") else Reaches(slot.period.x, e, "X"))
    && Reaches(slot.period.y, e, "Y") && Worth(r, e) != 0
  }

  lemma CountsIsMoves(r: Rule, slot: Slot, e: Event, now: nat)
    ensures Challenges.Counts(r, slot, e, now) <==> Moves(r, slot, e, now)
    ensures Increment(r, e) == Worth(r, e)
  {
    assert NotFuture(e.timestamp, now) <==> e.timestamp * SECOND <= now + 300 * SECOND;
    hide NotFuture;
    assert Accepts(r, slot.period, e) <==>
      e.name == r.name && Filtered(slot.period, e)
      && (if TimeRule(r) then Undercuts(slot.period.x, e, "X") else Reaches(slot.period.x, e, "X")) && Reaches(slot.period.y, e, "Y");
  }

  lemma {:induction false} CountedIs(r: Rule, slot: Slot, events: seq<Event>, now: nat, e: Event)
    ensures Counted(r, slot, events, now)[e] == if Moves(r, slot, e, now) then multiset(events)[e] else 0
    decreases |events|
  {
    if events != [] {
      var before, x := events[..|events|-1], events[|events|-1];
      assert events == before + [x];
      CountedIs(r, slot, before, now, e);
      CountsIsMoves(r, slot, x, now);
      hide Challenges.Counts, Moves;
    }
  }

  // ---------- when a record moves ----------

  /** Some event that moves the rule was reported more often than it has been credited. */
  ghost predicate SomethingNew(r: Rule, slot: Slot, record: Completion, events: seq<Event>, now: nat) {
    exists e :: Moves(r, slot, e, now) && multiset(events)[e] > record.receipts[e]
  }

  lemma TrackMoves(r: Rule, slot: Slot, record: Completion, events: seq<Event>, now: nat)
    requires record.completed == 0 && slot.start > 0
    ensures Track(r, slot, now, record, events).record != record <==> SomethingNew(r, slot, record, events, now)
    ensures !SomethingNew(r, slot, record, events, now) ==> !Track(r, slot, now, record, events).changed
  {
    var t := Track(r, slot, now, record, events);
    var counted := Counted(r, slot, events, now);
    TrackSeen(r, slot, now, record, events);
    if SomethingNew(r, slot, record, events, now) {
      var e :| Moves(r, slot, e, now) && multiset(events)[e] > record.receipts[e];
      CountedIs(r, slot, events, now, e);
      DoneCompleted(r, slot, record, events, now);
      hide Track, Counted, Moves, Challenges.Counts;
      assert !t.done ==> counted[e] <= t.record.receipts[e];
    } else {
      NothingNew(r, slot, record, events, now);
      TrackAgain(r, slot, now, record, events);
      hide Track, Counted, Moves, Challenges.Counts;
    }
  }

  lemma DoneCompleted(r: Rule, slot: Slot, record: Completion, events: seq<Event>, now: nat)
    requires slot.start > 0
    ensures Track(r, slot, now, record, events).done ==> Track(r, slot, now, record, events).record.completed != 0
  {
    TrackSeen(r, slot, now, record, events);
    hide Track, Accepts, Increment, NotFuture;
  }

  lemma NothingNew(r: Rule, slot: Slot, record: Completion, events: seq<Event>, now: nat)
    requires !SomethingNew(r, slot, record, events, now)
    ensures Counted(r, slot, events, now) <= record.receipts
  {
    forall e ensures Counted(r, slot, events, now)[e] <= record.receipts[e] { CountedIs(r, slot, events, now, e); }
    hide Counted, Moves;
  }

  /** What a report leaves in the account's record of a key. */
  ghost function RecordAfter(s: Schedule, a: Account, events: seq<Event>, now: nat, key: Key): Completion
    requires s.cycleSeconds > 0
  {
    RecordAt(ChallengesStored(s, a, events, now).challenges, key)
  }

  lemma StoredRecords(s: Schedule, a: Account, events: seq<Event>, now: nat)
    requires s.cycleSeconds > 0
    ensures ChallengesStored(s, a, events, now).challenges == AwardAll(s, s.rules, a.challenges, events, now).challenges
    ensures ChallengesStored(s, a, events, now) ==
      a.(challenges := AwardAll(s, s.rules, a.challenges, events, now).challenges,
         coins := a.coins + AwardAll(s, s.rules, a.challenges, events, now).credit)
  {
    UnchangedMeansSame(s, s.rules, a.challenges, events, now);
    hide AwardAll;
  }

  /** The record of an active rule moves exactly when the report has an event that moves the rule more
      often than it has been credited before. */
  lemma RecordMovesExactly(s: Schedule, a: Account, r: Rule, slot: Slot, events: seq<Event>, now: nat)
    requires s.cycleSeconds > 0 && StartsLate(s) && NamesOnce(s.rules) && r in s.rules && Current(s, r, Unix(now)) == Some(slot)
    requires RecordAt(a.challenges, KeyOf(r, slot)).completed == 0
    ensures RecordAfter(s, a, events, now, KeyOf(r, slot)) != RecordAt(a.challenges, KeyOf(r, slot)) <==>
      SomethingNew(r, slot, RecordAt(a.challenges, KeyOf(r, slot)), events, now)
  {
    StoredRecords(s, a, events, now);
    AwardAllAt(s, s.rules, r, slot, a.challenges, events, now);
    StartPositive(s, r, Unix(now));
    TrackMoves(r, slot, RecordAt(a.challenges, KeyOf(r, slot)), events, now);
    hide AwardAll, Track, Current, SomethingNew, StartsLate, ChallengesStored;
  }

  /** A report with nothing new for any rule that is active leaves the whole account as it was. */
  lemma {:induction false} NothingForRules(s: Schedule, rules: seq<Rule>, challenges: map<Key, Completion>, events: seq<Event>, now: nat)
    requires s.cycleSeconds > 0 && StartsLate(s) && forall r :: r in rules ==> r in s.rules
    requires forall r :: r in rules && Current(s, r, Unix(now)).Some? ==>
      var slot := Current(s, r, Unix(now)).value; !SomethingNew(r, slot, RecordAt(challenges, KeyOf(r, slot)), events, now)
    ensures AwardAll(s, rules, challenges, events, now) == Progress(challenges, 0, false, [])
    decreases |rules|
  {
    if rules != [] {
      var before, r := rules[..|rules|-1], rules[|rules|-1];
      assert r in rules;
      NothingForRules(s, before, challenges, events, now);
      if Current(s, r, Unix(now)).Some? {
        var slot := Current(s, r, Unix(now)).value;
        StartPositive(s, r, Unix(now));
        if RecordAt(challenges, KeyOf(r, slot)).completed == 0 { TrackMoves(r, slot, RecordAt(challenges, KeyOf(r, slot)), events, now); }
      }
      hide Track, Current, SomethingNew, StartsLate;
    }
  }

  /** The same said event by event: a report of events each of which, for every active rule, has another
      name, lies outside the window, fails a filter or a threshold, or is worth nothing, leaves the
      account exactly as it was. */
  lemma EventsIgnored(s: Schedule, a: Account, events: seq<Event>, now: nat)
    requires s.cycleSeconds > 0 && StartsLate(s)
    requires forall r, e :: r in s.rules && e in events && Current(s, r, Unix(now)).Some? ==> !Moves(r, Current(s, r, Unix(now)).value, e, now)
    ensures ChallengesStored(s, a, events, now) == a
  {
    forall r | r in s.rules && Current(s, r, Unix(now)).Some?
      ensures var slot := Current(s, r, Unix(now)).value; !SomethingNew(r, slot, RecordAt(a.challenges, KeyOf(r, slot)), events, now)
    {
      var slot := Current(s, r, Unix(now)).value;
      forall e | Moves(r, slot, e, now) ensures multiset(events)[e] == 0 { assert e !in events; }
    }
    hide Moves, Current, StartsLate, SomethingNew;
    NothingForRules(s, s.rules, a.challenges, events, now);
    StoredRecords(s, a, events, now);
  }

  // ---------- what one event is good for ----------

  /** The record after one new event `e` that moves the rule: its worth is added, and reaching the
      target completes the record at the event's time. The battle rule counts each of its five modes
      once instead. */
  function Scored(r: Rule, target: nat, c: Completion, e: Event): Completion {
    var receipts := c.receipts[e := c.receipts[e] + 1];
    if r.name != "win_game_in_T_different_battles_TRACKNAME" then
      if c.progress + Worth(r, e) >= target then Completion(e.timestamp, target, multiset{}, c.distinct)
      else Completion(0, c.progress + Worth(r, e), receipts, c.distinct)
    else if "X" !in e.values || !(9 <= e.values["X"] <= 13) || e.values["X"] in c.distinct then Completion(0, c.progress, receipts, c.distinct)
    else if c.progress + 1 >= target then Completion(e.timestamp, target, multiset{}, c.distinct + {e.values["X"]})
    else Completion(0, c.progress + 1, receipts, c.distinct + {e.values["X"]})
  }

  lemma CreditIsScored(r: Rule, slot: Slot, record: Completion, e: Event, now: nat, t: Tracking)
    requires Moves(r, slot, e, now) && record.completed == 0 && record.receipts[e] == 0 && record.progress <= slot.period.target < U64
    requires t.record == record.(receipts := record.receipts[e := 1]) && !t.done
    ensures Credit(r, slot.period.target, t, e).record == Scored(r, slot.period.target, record, e)
    ensures Credit(r, slot.period.target, t, e).changed == t.changed
    ensures e.timestamp != 0 ==> (Credit(r, slot.period.target, t, e).done <==> Scored(r, slot.period.target, record, e).completed != 0)
  {
    hide Moves, Worth, Increment, Gain, Challenges.Counts;
    CountsIsMoves(r, slot, e, now);
    GainIs(t, slot.period.target, Increment(r, e), e);
    if "X" in e.values { GainIs(t.(record := t.record.(distinct := t.record.distinct + {e.values["X"]})), slot.period.target, 1, e); }
  }

  /** Adding to progress, without 64-bit arithmetic. */
  lemma GainIs(t: Tracking, target: nat, increment: nat, e: Event)
    requires t.record.progress <= target < U64
    ensures Gain(t, target, increment, e) ==
      if t.record.progress + increment >= target then
        t.(record := t.record.(progress := target, completed := e.timestamp, receipts := multiset{}), done := true)
      else t.(record := t.record.(progress := t.record.progress + increment))
  {
    assert Sub64(target, t.record.progress) == target - t.record.progress;
  }

  lemma TrackOneEvent(r: Rule, slot: Slot, record: Completion, e: Event, now: nat)
    requires Moves(r, slot, e, now) && record.completed == 0 && record.receipts[e] == 0 && record.progress <= slot.period.target < U64
    ensures var t := Track(r, slot, now, record, [e]); t.record == Scored(r, slot.period.target, record, e) && t.changed
    ensures e.timestamp != 0 ==> (Track(r, slot, now, record, [e]).done <==> Scored(r, slot.period.target, record, e).completed != 0)
  {
    hide Challenges.Counts, Moves, Credit, Scored;
    CountsIsMoves(r, slot, e, now);
    var one := [e];
    assert one[..0] == [] && one[0] == e;
    var t0 := Tracking(record, multiset{}, false, false);
    assert Track(r, slot, now, record, one[..0]) == t0 && (t0.seen + multiset{e})[e] == 1;
    CreditIsScored(r, slot, record, e, now, Tracking(record.(receipts := record.receipts[e := 1]), t0.seen + multiset{e}, false, true));
  }

  lemma AwardHere(s: Schedule, r: Rule, slot: Slot, p: Progress, e: Event, now: nat)
    requires s.cycleSeconds > 0 && StartsLate(s) && r in s.rules && Current(s, r, Unix(now)) == Some(slot) && Moves(r, slot, e, now)
    requires RecordAt(p.challenges, KeyOf(r, slot)).completed == 0 && RecordAt(p.challenges, KeyOf(r, slot)).receipts[e] == 0
    requires RecordAt(p.challenges, KeyOf(r, slot)).progress <= slot.period.target < U64
    ensures var (q, scored) := (AwardOne(s, r, p, [e], now), Scored(r, slot.period.target, RecordAt(p.challenges, KeyOf(r, slot)), e));
      q.challenges == p.challenges[KeyOf(r, slot) := scored] && q.credit == p.credit + if scored.completed != 0 then r.reward else 0
  {
    StartPositive(s, r, Unix(now));
    assert e.timestamp != 0 by { hide Filtered, Reaches, Undercuts, Worth; }
    TrackOneEvent(r, slot, RecordAt(p.challenges, KeyOf(r, slot)), e, now);
    hide Track, Current, Moves, Scored, StartsLate;
  }

  lemma {:induction false} OthersIgnore(s: Schedule, rules: seq<Rule>, r: Rule, slot: Slot, challenges: map<Key, Completion>, e: Event, now: nat)
    requires s.cycleSeconds > 0 && StartsLate(s) && NamesOnce(rules) && (forall o :: o in rules ==> o in s.rules)
    requires r in s.rules && Current(s, r, Unix(now)) == Some(slot) && Moves(r, slot, e, now)
    requires forall o :: o in rules && o.name == r.name ==> o == r
    requires RecordAt(challenges, KeyOf(r, slot)).completed == 0 && RecordAt(challenges, KeyOf(r, slot)).receipts[e] == 0
    requires RecordAt(challenges, KeyOf(r, slot)).progress <= slot.period.target < U64
    ensures var p := AwardAll(s, rules, challenges, [e], now); var scored := Scored(r, slot.period.target, RecordAt(challenges, KeyOf(r, slot)), e);
      if r in rules then p.challenges == challenges[KeyOf(r, slot) := scored] && p.credit == (if scored.completed != 0 then r.reward else 0)
      else p.challenges == challenges && p.credit == 0
    decreases |rules|
  {
    if rules == [] {
      assert AwardAll(s, rules, challenges, [e], now).challenges == challenges;
    } else {
      hide *;
      var before, o := rules[..|rules|-1], rules[|rules|-1];
      RulesFront(s, rules, challenges, [e], now);
      MovesName(r, slot, e, now);
      OthersIgnore(s, before, r, slot, challenges, e, now);
      var p := AwardAll(s, before, challenges, [e], now);
      if o.name == r.name {
        NamedBefore(rules, r);
        AwardHere(s, r, slot, p, e, now);
      } else {
        OtherName(s, o, p, e, now);
      }
    }
  }

  lemma RulesFront(s: Schedule, rules: seq<Rule>, challenges: map<Key, Completion>, events: seq<Event>, now: nat)
    requires s.cycleSeconds > 0 && rules != [] && NamesOnce(rules)
    ensures var (before, o) := (rules[..|rules|-1], rules[|rules|-1]);
      && NamesOnce(before) && (forall x :: x in rules <==> x in before || x == o)
      && AwardAll(s, rules, challenges, events, now) == AwardOne(s, o, AwardAll(s, before, challenges, events, now), events, now)
  {
    hide AwardOne;
    var before, o := rules[..|rules|-1], rules[|rules|-1];
    assert rules == before + [o];
  }

  lemma MovesName(r: Rule, slot: Slot, e: Event, now: nat)
    requires Moves(r, slot, e, now)
    ensures e.name == r.name
  {
    hide Filtered, Reaches, Undercuts, Worth;
  }

  lemma NamedBefore(rules: seq<Rule>, r: Rule)
    requires rules != [] && NamesOnce(rules) && rules[|rules|-1].name == r.name
    ensures r !in rules[..|rules|-1]
  {
    var before := rules[..|rules|-1];
    forall i | 0 <= i < |before| ensures before[i] != r { assert rules[i].name != rules[|rules|-1].name; }
  }

  lemma OtherName(s: Schedule, o: Rule, p: Progress, e: Event, now: nat)
    requires s.cycleSeconds > 0 && StartsLate(s) && o in s.rules && e.name != o.name
    ensures AwardOne(s, o, p, [e], now) == p
  {
    if Current(s, o, Unix(now)).Some? {
      var slot := Current(s, o, Unix(now)).value;
      var record := RecordAt(p.challenges, KeyOf(o, slot));
      StartPositive(s, o, Unix(now));
      if record.completed == 0 {
        assert forall x :: Moves(o, slot, x, now) ==> multiset([e])[x] == 0;
        TrackMoves(o, slot, record, [e], now);
      }
      hide Track, Current, Moves, StartsLate;
    }
  }

  /** One new event that moves an active, unfinished rule is scored in that rule's record, pays the
      reward if it completes it, and changes nothing else in the account. */
  lemma EventScored(s: Schedule, a: Account, r: Rule, slot: Slot, e: Event, now: nat)
    requires s.cycleSeconds > 0 && StartsLate(s) && NamesOnce(s.rules) && r in s.rules && Current(s, r, Unix(now)) == Some(slot)
    requires Moves(r, slot, e, now)
    requires var c := RecordAt(a.challenges, KeyOf(r, slot)); c.completed == 0 && c.receipts[e] == 0 && c.progress <= slot.period.target < U64
    ensures var c := Scored(r, slot.period.target, RecordAt(a.challenges, KeyOf(r, slot)), e);
      ChallengesStored(s, a, [e], now) ==
        a.(challenges := a.challenges[KeyOf(r, slot) := c], coins := a.coins + if c.completed != 0 then r.reward else 0)
  {
    OneName(s.rules, r);
    OthersIgnore(s, s.rules, r, slot, a.challenges, e, now);
    StoredRecords(s, a, [e], now);
    hide AwardAll, Current, Moves, Scored, StartsLate, ChallengesStored;
  }

  /** One by one, what makes an event of the rule's name good for nothing. */
  lemma BrokenEventIgnored(s: Schedule, a: Account, r: Rule, slot: Slot, e: Event, now: nat)
    requires s.cycleSeconds > 0 && StartsLate(s) && NamesOnce(s.rules) && r in s.rules && Current(s, r, Unix(now)) == Some(slot) && e.name == r.name
    requires var (p, timed) := (slot.period,
        r.name == "finish_TRACKNAME_in_less_than_X_min" || r.name == "do_a_lap_under_X_in_TRACKNAME");
      || e.timestamp < slot.start || slot.end <= e.timestamp || e.timestamp * 1_000_000_000 > now + 300_000_000_000
      || (exists f :: f in p.filters && (f !in e.values || e.values[f] !in p.filters[f]))
      || (p.x != 0.0 && "X" !in e.values) || (p.y != 0.0 && "Y" !in e.values)
      || (p.x != 0.0 && timed && (e.Val("X") == 0 || e.Val("X") as real >= p.x))
      || (p.x != 0.0 && !timed && (e.Val("X") as real) < p.x)
      || (p.y != 0.0 && (e.Val("Y") as real) < p.y)
      || (if r.name == "visit_pit_stop" then e.Val("value") == 0 else e.Val("Progress") == 0)
    ensures ChallengesStored(s, a, [e], now) == a
  {
    assert !Moves(r, slot, e, now);
    OneName(s.rules, r);
    forall o, x | o in s.rules && x in [e] && Current(s, o, Unix(now)).Some? ensures !Moves(o, Current(s, o, Unix(now)).value, x, now) {
      assert x == e;
      if o.name == e.name { assert o == r; }
    }
    hide Moves, Current, StartsLate, ChallengesStored;
    EventsIgnored(s, a, [e], now);
  }
}
