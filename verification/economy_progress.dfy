/** What challenge progress means: over every history of reports it equals a simple score of
    the events reported, whatever was retried, split or repeated. */
module ChallengeProgress {
  import opened Common
  import opened EconomyTypes
  import opened Challenges

  // ---------- score of a bag of events ----------

  ghost function Pick(m: multiset<Event>): Event
    requires m != multiset{}
    ensures Pick(m) in m
  {
    var e :| e in m;
    e
  }

  /** The sum of all increments, occurrence by occurrence. */
  ghost function Weight(r: Rule, m: multiset<Event>): nat
    decreases |m|
  {
    if m == multiset{} then 0 else Increment(r, Pick(m)) + Weight(r, m - multiset{Pick(m)})
  }

  /** The battle modes won. */
  ghost function Modes(m: multiset<Event>): set<nat> {
    set e | e in m && BattleMode(e) :: e.values["X"]
  }

  ghost function Score(r: Rule, m: multiset<Event>): nat {
    if r.name == DISTINCT_RULE then |Modes(m)| else Weight(r, m)
  }

  lemma {:induction false} WeightAdd(r: Rule, m: multiset<Event>, e: Event)
    ensures Weight(r, m + multiset{e}) == Weight(r, m) + Increment(r, e)
    decreases |m|
  {
    var s := m + multiset{e};
    var x := Pick(s);
    if x == e {
      assert s - multiset{x} == m;
    } else {
      var rest := m - multiset{x};
      assert s - multiset{x} == rest + multiset{e} && m == rest + multiset{x};
      WeightAdd(r, rest, e);
      WeightAdd(r, rest, x);
    }
  }

  lemma {:induction false} WeightGrows(r: Rule, a: multiset<Event>, b: multiset<Event>)
    requires a <= b
    ensures Weight(r, a) <= Weight(r, b)
    decreases |b - a|
  {
    var d := b - a;
    assert a + d == b;
    if d != multiset{} {
      var e := Pick(d);
      assert b - (a + multiset{e}) == d - multiset{e};
      WeightGrows(r, a + multiset{e}, b);
      WeightAdd(r, a, e);
    } else {
      assert a + d == a;
    }
  }

  lemma ModesAdd(m: multiset<Event>, e: Event)
    ensures Modes(m + multiset{e}) == Modes(m) + if BattleMode(e) then {e.values["X"]} else {}
  {
    assert forall x :: x in m + multiset{e} <==> x in m || x == e;
  }

  lemma ScoreGrows(r: Rule, a: multiset<Event>, b: multiset<Event>)
    requires a <= b
    ensures Score(r, a) <= Score(r, b)
  {
    if r.name == DISTINCT_RULE {
      assert Modes(a) <= Modes(b) by { assert forall e :: e in a ==> e in b; }
      SubsetSize(Modes(a), Modes(b));
    } else {
      WeightGrows(r, a, b);
    }
  }

  /** For each event, the higher of the two multiplicities. */
  ghost function Highest(a: multiset<Event>, b: multiset<Event>): (m: multiset<Event>)
    ensures forall e :: m[e] == if a[e] >= b[e] then a[e] else b[e]
  {
    a + (b - a)
  }

  // ---------- one report ----------

  /** A record that has credited exactly the occurrences in `bag`. */
  ghost predicate Credited(r: Rule, target: nat, c: Completion, bag: multiset<Event>) {
    if Score(r, bag) >= target then c.completed != 0 && c.progress == target
    else Unfinished(r, target, c, bag)
  }

  ghost predicate Unfinished(r: Rule, target: nat, c: Completion, bag: multiset<Event>) {
    && c.completed == 0 && c.receipts == bag && c.progress == Score(r, bag) < target
    && (r.name == DISTINCT_RULE ==> c.distinct == Modes(bag))
  }

  lemma CreditSum(r: Rule, target: nat, t: Tracking, bag: multiset<Event>, e: Event)
    requires target < U64 && !t.done && e.timestamp != 0 && r.name != DISTINCT_RULE
    requires Unfinished(r, target, t.record.(receipts := bag), bag) && t.record.receipts == bag + multiset{e}
    ensures var t' := Credit(r, target, t, e);
      && Credited(r, target, t'.record, bag + multiset{e})
      && (t'.done <==> Score(r, bag + multiset{e}) >= target) && t'.seen == t.seen
  {
    WeightAdd(r, bag, e);
    hide Weight, Modes;
    assert Sub64(target, t.record.progress) == target - t.record.progress;
  }

  lemma CreditMode(r: Rule, target: nat, t: Tracking, bag: multiset<Event>, e: Event)
    requires target < U64 && !t.done && e.timestamp != 0 && r.name == DISTINCT_RULE
    requires Unfinished(r, target, t.record.(receipts := bag), bag) && t.record.receipts == bag + multiset{e}
    ensures var t' := Credit(r, target, t, e);
      && Credited(r, target, t'.record, bag + multiset{e})
      && (t'.done <==> Score(r, bag + multiset{e}) >= target) && t'.seen == t.seen
  {
    ModesAdd(bag, e);
    hide Weight, Modes;
    assert Sub64(target, t.record.progress) == target - t.record.progress;
    if BattleMode(e) && e.values["X"] !in t.record.distinct {
      assert |t.record.distinct + {e.values["X"]}| == |t.record.distinct| + 1;
    } else {
      assert Modes(bag + multiset{e}) == Modes(bag);
    }
  }

  /** One more credited occurrence: no subtraction or addition wraps, and the record either
      completes or credits it. */
  lemma CreditKeeps(r: Rule, target: nat, t: Tracking, bag: multiset<Event>, e: Event)
    requires target < U64 && !t.done && e.timestamp != 0
    requires Unfinished(r, target, t.record.(receipts := bag), bag) && t.record.receipts == bag + multiset{e}
    ensures var t' := Credit(r, target, t, e);
      && Credited(r, target, t'.record, bag + multiset{e})
      && (t'.done <==> Score(r, bag + multiset{e}) >= target) && t'.seen == t.seen
  {
    if r.name == DISTINCT_RULE { CreditMode(r, target, t, bag, e); } else { CreditSum(r, target, t, bag, e); }
    hide Credit, Credited, Unfinished, Score;
  }

  ghost predicate Tracks(r: Rule, target: nat, t: Tracking, start: multiset<Event>, seen: multiset<Event>) {
    && Credited(r, target, t.record, Highest(start, seen))
    && (t.done <==> Score(r, Highest(start, seen)) >= target)
    && (!t.done ==> t.seen == seen)
  }

  lemma HighestGrows(start: multiset<Event>, seen: multiset<Event>, e: Event)
    ensures var (before, after) := (Highest(start, seen), Highest(start, seen + multiset{e}));
      && before <= after
      && (start[e] > seen[e] ==> after == before)
      && (start[e] <= seen[e] ==> after == before + multiset{e})
      && before[e] == if start[e] > seen[e] then start[e] else seen[e]
  {
  }

  lemma ReceiptAdded(receipts: multiset<Event>, e: Event)
    ensures receipts[e := receipts[e] + 1] == receipts + multiset{e}
  {
  }

  /** A new receipt is credited. */
  lemma TrackCredits(r: Rule, slot: Slot, t: Tracking, e: Event, start: multiset<Event>, seen: multiset<Event>)
    requires 0 < slot.period.target < U64 && Tracks(r, slot.period.target, t, start, seen)
    requires !t.done && e.timestamp != 0 && t.record.receipts[e] <= seen[e]
    ensures Tracks(r, slot.period.target,
      Credit(r, slot.period.target,
        Tracking(t.record.(receipts := t.record.receipts[e := seen[e] + 1]), seen + multiset{e}, false, true), e),
      start, seen + multiset{e})
  {
    HighestGrows(start, seen, e);
    hide Score, Credit, Highest;
    ReceiptAdded(t.record.receipts, e);
    CreditKeeps(r, slot.period.target,
      Tracking(t.record.(receipts := t.record.receipts[e := seen[e] + 1]), seen + multiset{e}, false, true), Highest(start, seen), e);
  }

  /** A receipt that was there already, or a challenge that is complete, takes no credit. */
  lemma TrackSkips(r: Rule, target: nat, t: Tracking, e: Event, start: multiset<Event>, seen: multiset<Event>)
    requires target > 0 && Tracks(r, target, t, start, seen) && (t.done || t.record.receipts[e] > seen[e])
    ensures Tracks(r, target, if t.done then t else t.(seen := seen + multiset{e}), start, seen + multiset{e})
  {
    HighestGrows(start, seen, e);
    hide Score, Highest;
    ScoreGrows(r, Highest(start, seen), Highest(start, seen + multiset{e}));
  }

  lemma TrackOneIs(r: Rule, slot: Slot, now: nat, t: Tracking, e: Event)
    requires Counts(r, slot, e, now)
    ensures TrackOne(r, slot, now, t, e) ==
      if t.done then t
      else if t.record.receipts[e] > t.seen[e] then t.(seen := t.seen + multiset{e})
      else Credit(r, slot.period.target,
        Tracking(t.record.(receipts := t.record.receipts[e := t.seen[e] + 1]), t.seen + multiset{e}, false, true), e)
  {
    hide Counts, Credit;
    assert (t.seen + multiset{e})[e] == t.seen[e] + 1;
  }

  lemma TrackOneKeeps(r: Rule, slot: Slot, now: nat, t: Tracking, e: Event, start: multiset<Event>, seen: multiset<Event>)
    requires 0 < slot.period.target < U64 && slot.start > 0 && Tracks(r, slot.period.target, t, start, seen)
    ensures Tracks(r, slot.period.target, TrackOne(r, slot, now, t, e), start,
      if Counts(r, slot, e, now) then seen + multiset{e} else seen)
  {
    if Counts(r, slot, e, now) {
      assert e.timestamp != 0;
      assert !t.done ==> t.seen == seen;
      TrackOneIs(r, slot, now, t, e);
      hide Counts, Credit, Tracks, TrackOne;
      if t.done || t.record.receipts[e] > seen[e] {
        TrackSkips(r, slot.period.target, t, e, start, seen);
      } else {
        TrackCredits(r, slot, t, e, start, seen);
      }
    }
  }

  lemma {:induction false} TrackKeeps(r: Rule, slot: Slot, now: nat, record: Completion, events: seq<Event>, start: multiset<Event>)
    requires 0 < slot.period.target < U64 && slot.start > 0 && Unfinished(r, slot.period.target, record, start)
    ensures Tracks(r, slot.period.target, Track(r, slot, now, record, events), start, Counted(r, slot, events, now))
  {
    if events == [] {
      assert Highest(start, multiset{}) == start;
    } else {
      var before, e := events[..|events|-1], events[|events|-1];
      TrackKeeps(r, slot, now, record, before, start);
      hide Tracks, TrackOne, Counts;
      TrackOneKeeps(r, slot, now, Track(r, slot, now, record, before), e, start, Counted(r, slot, before, now));
      assert Counted(r, slot, before, now) + multiset{} == Counted(r, slot, before, now);
    }
  }

  // ---------- every history ----------

  ghost function History(s: Schedule, challenges: map<Key, Completion>, history: seq<Report>): map<Key, Completion>
    requires s.cycleSeconds > 0
  {
    if history == [] then challenges
    else
      var h, last := history[..|history|-1], history[|history|-1];
      AwardAll(s, s.rules, History(s, challenges, h), last.events, last.now).challenges
  }

  predicate Arrives(s: Schedule, r: Rule, slot: Slot, h: Report)
    requires s.cycleSeconds > 0
  {
    Current(s, r, Unix(h.now)) == Some(slot)
  }

  /** The reports of a history that arrive while the rule is in this period of this cycle. */
  ghost function Only(s: Schedule, r: Rule, slot: Slot, history: seq<Report>): seq<Report>
    requires s.cycleSeconds > 0
  {
    if history == [] then []
    else
      var before, last := Only(s, r, slot, history[..|history|-1]), history[|history|-1];
      if Arrives(s, r, slot, last) then before + [last] else before
  }

  /** For each event, its highest multiplicity in any single report. */
  ghost function Best(r: Rule, slot: Slot, history: seq<Report>): multiset<Event> {
    if history == [] then multiset{}
    else Highest(Best(r, slot, history[..|history|-1]), Counted(r, slot, history[|history|-1].events, history[|history|-1].now))
  }

  lemma {:induction false} BestIsHighest(r: Rule, slot: Slot, history: seq<Report>, e: Event)
    ensures forall h :: h in history ==> Counted(r, slot, h.events, h.now)[e] <= Best(r, slot, history)[e]
    ensures Best(r, slot, history)[e] == 0 || exists h :: h in history && Counted(r, slot, h.events, h.now)[e] == Best(r, slot, history)[e]
  {
    if history != [] {
      var before, last := history[..|history|-1], history[|history|-1];
      assert history == before + [last];
      BestIsHighest(r, slot, before, e);
    }
  }

  function Moved(r: Rule, slot: Slot, record: Completion, events: seq<Event>, now: nat): Completion {
    if record.completed != 0 then record else Track(r, slot, now, record, events).record
  }

  lemma AwardOneElsewhere(s: Schedule, o: Rule, p: Progress, events: seq<Event>, now: nat, key: Key)
    requires s.cycleSeconds > 0 && o.name != key.name
    ensures RecordAt(AwardOne(s, o, p, events, now).challenges, key) == RecordAt(p.challenges, key)
  {
    hide Track, Current;
  }

  lemma AwardOneHere(s: Schedule, r: Rule, slot: Slot, p: Progress, events: seq<Event>, now: nat)
    requires s.cycleSeconds > 0 && Current(s, r, Unix(now)) == Some(slot)
    ensures RecordAt(AwardOne(s, r, p, events, now).challenges, KeyOf(r, slot)) == Moved(r, slot, RecordAt(p.challenges, KeyOf(r, slot)), events, now)
  {
    TrackSeen(r, slot, now, RecordAt(p.challenges, KeyOf(r, slot)), events);
    hide Track, Current;
  }

  lemma {:induction false} NotNamed(s: Schedule, rules: seq<Rule>, key: Key, challenges: map<Key, Completion>, events: seq<Event>, now: nat)
    requires s.cycleSeconds > 0 && forall o :: o in rules ==> o.name != key.name
    ensures RecordAt(AwardAll(s, rules, challenges, events, now).challenges, key) == RecordAt(challenges, key)
  {
    if rules != [] {
      var before, o := rules[..|rules|-1], rules[|rules|-1];
      assert rules == before + [o];
      NotNamed(s, before, key, challenges, events, now);
      AwardOneElsewhere(s, o, AwardAll(s, before, challenges, events, now), events, now, key);
    }
  }

  /** An active rule's record moves by its own tracking only. */
  lemma {:induction false} AwardAllAt(s: Schedule, rules: seq<Rule>, r: Rule, slot: Slot, challenges: map<Key, Completion>, events: seq<Event>, now: nat)
    requires s.cycleSeconds > 0 && NamesOnce(rules) && r in rules && Current(s, r, Unix(now)) == Some(slot)
    ensures RecordAt(AwardAll(s, rules, challenges, events, now).challenges, KeyOf(r, slot)) ==
      Moved(r, slot, RecordAt(challenges, KeyOf(r, slot)), events, now)
  {
    var before, o := rules[..|rules|-1], rules[|rules|-1];
    assert rules == before + [o];
    var p := AwardAll(s, before, challenges, events, now);
    if o == r {
      forall q | q in before ensures q.name != r.name {
        var i :| 0 <= i < |before| && before[i] == q;
        assert rules[i].name != rules[|rules|-1].name;
      }
      NotNamed(s, before, KeyOf(r, slot), challenges, events, now);
      AwardOneHere(s, r, slot, p, events, now);
    } else {
      var i :| 0 <= i < |before| && before[i] == r;
      assert rules[i].name != rules[|rules|-1].name;
      AwardAllAt(s, before, r, slot, challenges, events, now);
      AwardOneElsewhere(s, o, p, events, now, KeyOf(r, slot));
    }
  }

  /** Another period of the rule, or the time between its periods, has another record. */
  lemma OtherSlotOtherKey(s: Schedule, r: Rule, slot: Slot, u: int, t: int)
    requires s.cycleSeconds > 0 && PeriodsOk(s, r) && Current(s, r, u) == Some(slot) && Current(s, r, t) != Some(slot)
    ensures Current(s, r, t).Some? ==> KeyOf(r, Current(s, r, t).value) != KeyOf(r, slot)
  {
    if Current(s, r, t).Some? {
      SameKeySamePeriod(s, r, t, u);
      FindSome(r.periods, 0, s.cycleStart + CycleOf(s, t) * s.cycleSeconds, t);
      FindSome(r.periods, 0, s.cycleStart + CycleOf(s, u) * s.cycleSeconds, u);
    }
  }

  lemma OutsideOne(s: Schedule, r: Rule, slot: Slot, p: Progress, events: seq<Event>, now: nat)
    requires s.cycleSeconds > 0
    requires Current(s, r, Unix(now)).Some? ==> KeyOf(r, Current(s, r, Unix(now)).value) != KeyOf(r, slot)
    ensures RecordAt(AwardOne(s, r, p, events, now).challenges, KeyOf(r, slot)) == RecordAt(p.challenges, KeyOf(r, slot))
  {
    hide Track, Current;
  }

  /** A report that arrives outside a period leaves that period's record alone. */
  lemma {:induction false} OutsideAll(s: Schedule, rules: seq<Rule>, r: Rule, slot: Slot, challenges: map<Key, Completion>, events: seq<Event>, now: nat)
    requires s.cycleSeconds > 0 && (forall o :: o in rules && o.name == r.name ==> o == r)
    requires Current(s, r, Unix(now)).Some? ==> KeyOf(r, Current(s, r, Unix(now)).value) != KeyOf(r, slot)
    ensures RecordAt(AwardAll(s, rules, challenges, events, now).challenges, KeyOf(r, slot)) == RecordAt(challenges, KeyOf(r, slot))
  {
    if rules != [] {
      var before, o := rules[..|rules|-1], rules[|rules|-1];
      assert rules == before + [o] && o in rules;
      OutsideAll(s, before, r, slot, challenges, events, now);
      hide Current, RecordAt;
      var p := AwardAll(s, before, challenges, events, now);
      if o.name == r.name { OutsideOne(s, r, slot, p, events, now); }
      else { AwardOneElsewhere(s, o, p, events, now, KeyOf(r, slot)); }
    }
  }

  lemma OneName(rules: seq<Rule>, r: Rule)
    requires NamesOnce(rules) && r in rules
    ensures forall o :: o in rules && o.name == r.name ==> o == r
  {
  }

  /** A completed record, an old one without progress included, never changes again. */
  lemma {:induction false} CompletedStays(s: Schedule, r: Rule, slot: Slot, u: int, challenges: map<Key, Completion>, history: seq<Report>)
    requires s.cycleSeconds > 0 && NamesOnce(s.rules) && r in s.rules && PeriodsOk(s, r) && Current(s, r, u) == Some(slot)
    requires RecordAt(challenges, KeyOf(r, slot)).completed != 0
    ensures RecordAt(History(s, challenges, history), KeyOf(r, slot)) == RecordAt(challenges, KeyOf(r, slot))
  {
    if history != [] {
      var before, last := history[..|history|-1], history[|history|-1];
      CompletedStays(s, r, slot, u, challenges, before);
      ReportMoves(s, r, slot, u, History(s, challenges, before), last);
    }
  }

  /** What one report, whenever it arrives, does to one period's record. */
  lemma ReportMoves(s: Schedule, r: Rule, slot: Slot, u: int, challenges: map<Key, Completion>, h: Report)
    requires s.cycleSeconds > 0 && NamesOnce(s.rules) && r in s.rules && PeriodsOk(s, r) && Current(s, r, u) == Some(slot)
    ensures var was := RecordAt(challenges, KeyOf(r, slot));
      RecordAt(AwardAll(s, s.rules, challenges, h.events, h.now).challenges, KeyOf(r, slot)) ==
        if Arrives(s, r, slot, h) then Moved(r, slot, was, h.events, h.now) else was
  {
    if Arrives(s, r, slot, h) {
      AwardAllAt(s, s.rules, r, slot, challenges, h.events, h.now);
    } else {
      OneName(s.rules, r);
      OtherSlotOtherKey(s, r, slot, u, Unix(h.now));
      OutsideAll(s, s.rules, r, slot, challenges, h.events, h.now);
    }
    hide AwardAll, Moved, Current, RecordAt;
  }

  /** The refinement, over every history: whatever arrives before, between and after, the record
      of a period is decided by the best multiplicity of each counted event among the reports
      that arrive in that period. It is completed exactly when their score reaches the target,
      and its progress is the score, at most the target. */
  lemma ProgressIsScore(s: Schedule, r: Rule, slot: Slot, u: int, challenges: map<Key, Completion>, history: seq<Report>)
    requires s.cycleSeconds > 0 && NamesOnce(s.rules) && r in s.rules && PeriodsOk(s, r) && Current(s, r, u) == Some(slot)
    requires slot.start > 0 && 0 < slot.period.target < U64 && KeyOf(r, slot) !in challenges
    ensures var c := RecordAt(History(s, challenges, history), KeyOf(r, slot)); var best := Best(r, slot, Only(s, r, slot, history));
      && (c.completed != 0 <==> Score(r, best) >= slot.period.target)
      && c.progress == Min(Score(r, best), slot.period.target)
      && (c.completed == 0 ==> c.receipts == best)
  {
    assert Credited(r, slot.period.target, RecordAt(challenges, KeyOf(r, slot)), multiset{}) by { assert Modes(multiset{}) == {}; }
    HistoryCredits(s, r, slot, u, challenges, multiset{}, history);
    assert Highest(multiset{}, Best(r, slot, Only(s, r, slot, history))) == Best(r, slot, Only(s, r, slot, history));
  }

  /** The same from an account that already has credit `start` in that period. */
  lemma {:induction false} HistoryCredits(
    s: Schedule, r: Rule, slot: Slot, u: int, challenges: map<Key, Completion>, start: multiset<Event>, history: seq<Report>)
    requires s.cycleSeconds > 0 && NamesOnce(s.rules) && r in s.rules && PeriodsOk(s, r) && Current(s, r, u) == Some(slot)
    requires slot.start > 0 && 0 < slot.period.target < U64
    requires Credited(r, slot.period.target, RecordAt(challenges, KeyOf(r, slot)), start)
    ensures Credited(r, slot.period.target, RecordAt(History(s, challenges, history), KeyOf(r, slot)),
      Highest(start, Best(r, slot, Only(s, r, slot, history))))
  {
    if history == [] {
      assert Highest(start, multiset{}) == start;
    } else {
      var before, last := history[..|history|-1], history[|history|-1];
      HistoryCredits(s, r, slot, u, challenges, start, before);
      HistorySnoc(s, r, slot, challenges, history);
      hide *;
      var was := History(s, challenges, before);
      ReportMoves(s, r, slot, u, was, last);
      if Arrives(s, r, slot, last) {
        var kept := Only(s, r, slot, before);
        MovedCredits(r, slot, RecordAt(was, KeyOf(r, slot)), last, Highest(start, Best(r, slot, kept)));
        BestSnoc(r, slot, kept, last);
        HighestTwice(start, Best(r, slot, kept), Counted(r, slot, last.events, last.now));
      }
    }
  }

  lemma HistorySnoc(s: Schedule, r: Rule, slot: Slot, challenges: map<Key, Completion>, history: seq<Report>)
    requires s.cycleSeconds > 0 && history != []
    ensures var before, last := history[..|history|-1], history[|history|-1];
      && History(s, challenges, history) == AwardAll(s, s.rules, History(s, challenges, before), last.events, last.now).challenges
      && Only(s, r, slot, history) == if Arrives(s, r, slot, last) then Only(s, r, slot, before) + [last] else Only(s, r, slot, before)
  {
    hide AwardAll, Arrives;
  }

  lemma HighestTwice(a: multiset<Event>, b: multiset<Event>, c: multiset<Event>)
    ensures Highest(Highest(a, b), c) == Highest(a, Highest(b, c))
  {
  }

  lemma BestSnoc(r: Rule, slot: Slot, before: seq<Report>, last: Report)
    ensures Best(r, slot, before + [last]) == Highest(Best(r, slot, before), Counted(r, slot, last.events, last.now))
  {
    assert (before + [last])[..|before|] == before;
  }

  lemma MovedCredits(r: Rule, slot: Slot, record: Completion, h: Report, bag: multiset<Event>)
    requires slot.start > 0 && 0 < slot.period.target < U64 && Credited(r, slot.period.target, record, bag)
    ensures Credited(r, slot.period.target, Moved(r, slot, record, h.events, h.now), Highest(bag, Counted(r, slot, h.events, h.now)))
  {
    var counted := Counted(r, slot, h.events, h.now);
    if Score(r, bag) >= slot.period.target {
      assert bag <= Highest(bag, counted);
      ScoreGrows(r, bag, Highest(bag, counted));
    } else {
      TrackKeeps(r, slot, h.now, record, h.events, bag);
    }
    hide Score, Track;
  }
}
