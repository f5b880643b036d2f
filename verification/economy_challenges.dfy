/** Challenge schedules, progress and rewards (ctr_challenge_rules.go). */
module Challenges {
  import opened Common
  import opened EconomyTypes

  const DISTINCT_RULE := "win_game_in_T_different_battles_TRACKNAME"
  const VISIT_RULE := "visit_pit_stop"

  // ---------- schedule ----------

  /** The active period of a rule, placed on the time line. */
  datatype Slot = Slot(index: nat, period: Period, start: int, end: int)

  function CycleOf(s: Schedule, t: int): int
    requires s.cycleSeconds > 0
  {
    (t - s.cycleStart) / s.cycleSeconds
  }

  predicate Covers(p: Period, base: int, t: int) { base + p.start <= t < base + p.end }

  /** The first period from index `i` on that covers `t`. */
  function Find(periods: seq<Period>, i: nat, base: int, t: int): Option<Slot>
    requires i <= |periods|
    decreases |periods| - i
  {
    if i == |periods| then None
    else if Covers(periods[i], base, t) then Some(Slot(i, periods[i], base + periods[i].start, base + periods[i].end))
    else Find(periods, i + 1, base, t)
  }

  function Current(s: Schedule, r: Rule, t: int): Option<Slot>
    requires s.cycleSeconds > 0
  {
    if t < s.cycleStart then None
    else Find(r.periods, 0, s.cycleStart + CycleOf(s, t) * s.cycleSeconds, t)
  }

  function KeyOf(r: Rule, slot: Slot): Key { Key(r.name, slot.start) }

  /** Periods lie inside the cycle and do not overlap. */
  ghost predicate PeriodsOk(s: Schedule, r: Rule) {
    && (forall i :: 0 <= i < |r.periods| ==> 0 <= r.periods[i].start < r.periods[i].end <= s.cycleSeconds)
    && (forall i, j :: 0 <= i < j < |r.periods| ==>
          r.periods[i].end <= r.periods[j].start || r.periods[j].end <= r.periods[i].start)
  }

  lemma {:induction false} FindSome(periods: seq<Period>, i: nat, base: int, t: int)
    requires i <= |periods|
    ensures var f := Find(periods, i, base, t);
      && (f.Some? ==>
            && i <= f.value.index < |periods| && f.value.period == periods[f.value.index]
            && f.value.start == base + f.value.period.start && f.value.end == base + f.value.period.end
            && f.value.start <= t < f.value.end
            && forall k :: i <= k < f.value.index ==> !(base + periods[k].start <= t < base + periods[k].end))
      && (f.None? ==> forall k :: i <= k < |periods| ==> !(base + periods[k].start <= t < base + periods[k].end))
    decreases |periods| - i
  {
    if i < |periods| && !Covers(periods[i], base, t) { FindSome(periods, i + 1, base, t); }
  }

  /** In the c-th cycle, c from 0, a rule is active exactly inside one of its periods counted from the
      start of that cycle, and its window is that of the first such period. Before the first cycle no
      rule is active. */
  lemma WindowContainsNow(s: Schedule, r: Rule, t: int, c: int)
    requires s.cycleSeconds > 0 && s.cycleStart + c * s.cycleSeconds <= t < s.cycleStart + (c + 1) * s.cycleSeconds
    ensures var base := s.cycleStart + c * s.cycleSeconds;
      && (Current(s, r, t).Some? <==>
        c >= 0 && exists k :: 0 <= k < |r.periods| && base + r.periods[k].start <= t < base + r.periods[k].end)
      && (Current(s, r, t).Some? ==>
        var w := Current(s, r, t).value;
        && w.index < |r.periods| && w.period == r.periods[w.index]
        && w.start == base + w.period.start && w.end == base + w.period.end && w.start <= t < w.end
        && forall k :: 0 <= k < w.index ==> !(base + r.periods[k].start <= t < base + r.periods[k].end))
  {
    CycleIs(s, t, c);
    if c < 0 { BeforeStart(s.cycleSeconds, c + 1); }
    hide CycleOf;
    FindSome(r.periods, 0, s.cycleStart + c * s.cycleSeconds, t);
    hide Find;
  }

  lemma BeforeStart(n: int, c: int)
    requires n > 0 && c <= 0
    ensures c * n <= 0
  {
  }

  lemma CycleIs(s: Schedule, t: int, c: int)
    requires s.cycleSeconds > 0 && s.cycleStart + c * s.cycleSeconds <= t < s.cycleStart + (c + 1) * s.cycleSeconds
    ensures CycleOf(s, t) == c
    ensures c >= 0 ==> t >= s.cycleStart
  {
    var n, q := s.cycleSeconds, CycleOf(s, t);
    assert q * n <= t - s.cycleStart < (q + 1) * n;
    if q < c { AtMost(q + 1, c, n); }
    if c < q { AtMost(c + 1, q, n); }
    if c >= 0 { AtMost(0, c, n); }
  }

  lemma AtMost(a: int, b: int, n: int)
    requires a <= b && n > 0
    ensures a * n <= b * n
  {
  }

  /** Two moments share a challenge record exactly when they lie in the same period of the
      same cycle. */
  lemma SameKeySamePeriod(s: Schedule, r: Rule, t: int, u: int)
    requires s.cycleSeconds > 0 && PeriodsOk(s, r) && Current(s, r, t).Some? && Current(s, r, u).Some?
    ensures KeyOf(r, Current(s, r, t).value) == KeyOf(r, Current(s, r, u).value) <==>
      CycleOf(s, t) == CycleOf(s, u) && Current(s, r, t).value.index == Current(s, r, u).value.index
  {
    FindSome(r.periods, 0, s.cycleStart + CycleOf(s, t) * s.cycleSeconds, t);
    FindSome(r.periods, 0, s.cycleStart + CycleOf(s, u) * s.cycleSeconds, u);
    var a, b := Current(s, r, t).value, Current(s, r, u).value;
    if a.start == b.start {
      SameCycle(s.cycleSeconds, CycleOf(s, t), CycleOf(s, u), a.period.start, b.period.start);
    }
  }

  lemma SameCycle(n: int, i: int, j: int, x: int, y: int)
    requires n > 0 && 0 <= x < n && 0 <= y < n && i * n + x == j * n + y
    ensures i == j && x == y
  {
    if i != j {
      var k := if i > j then i - j else j - i;
      AtLeast(k, n);
    }
  }

  lemma AtLeast(k: int, n: int)
    requires k >= 1 && n > 0
    ensures k * n >= n
  {
  }

  // ---------- which events count ----------

  /** Thresholds: finishing times compare downward, everything else upward. */
  predicate PassesX(r: Rule, p: Period, e: Event) {
    p.x == 0.0 || ("X" in e.values &&
      if r.name == "finish_TRACKNAME_in_less_than_X_min" || r.name == "do_a_lap_under_X_in_TRACKNAME"
      then e.values["X"] != 0 && e.values["X"] as real < p.x
      else e.values["X"] as real >= p.x)
  }

  predicate PassesY(p: Period, e: Event) {
    p.y == 0.0 || ("Y" in e.values && e.values["Y"] as real >= p.y)
  }

  predicate Accepts(r: Rule, p: Period, e: Event) {
    && r.name == e.name
    && (forall f :: f in p.filters ==> f in e.values && e.values[f] in p.filters[f])
    && PassesX(r, p, e) && PassesY(p, e)
  }

  function Increment(r: Rule, e: Event): nat {
    if r.name == VISIT_RULE then e.Val("value") else e.Val("Progress")
  }

  predicate Counts(r: Rule, slot: Slot, e: Event, now: nat) {
    && slot.start <= e.timestamp < slot.end && NotFuture(e.timestamp, now)
    && Accepts(r, slot.period, e) && Increment(r, e) != 0
  }

  // ---------- one rule, one report ----------

  datatype Tracking = Tracking(record: Completion, seen: multiset<Event>, done: bool, changed: bool)

  predicate BattleMode(e: Event) { "X" in e.values && 9 <= e.values["X"] <= 13 }

  /** Adds progress; reaching the target completes the challenge and drops its receipts. */
  function Gain(t: Tracking, target: nat, increment: nat, e: Event): Tracking {
    if increment >= Sub64(target, t.record.progress) then
      t.(record := t.record.(progress := target, completed := e.timestamp, receipts := multiset{}), done := true)
    else t.(record := t.record.(progress := Add64(t.record.progress, increment)))
  }

  function Credit(r: Rule, target: nat, t: Tracking, e: Event): Tracking {
    if r.name != DISTINCT_RULE then Gain(t, target, Increment(r, e), e)
    else if !BattleMode(e) || e.values["X"] in t.record.distinct then t
    else Gain(t.(record := t.record.(distinct := t.record.distinct + {e.values["X"]})), target, 1, e)
  }

  /** The n-th occurrence of an event in a report counts unless n were credited before. */
  function TrackOne(r: Rule, slot: Slot, now: nat, t: Tracking, e: Event): Tracking {
    if t.done || !Counts(r, slot, e, now) then t else
      var seen := t.seen + multiset{e};
      if t.record.receipts[e] >= seen[e] then t.(seen := seen)
      else Credit(r, slot.period.target, Tracking(t.record.(receipts := t.record.receipts[e := seen[e]]), seen, false, true), e)
  }

  function Track(r: Rule, slot: Slot, now: nat, record: Completion, events: seq<Event>): Tracking {
    if events == [] then Tracking(record, multiset{}, false, false)
    else TrackOne(r, slot, now, Track(r, slot, now, record, events[..|events|-1]), events[|events|-1])
  }

  // ---------- all rules ----------

  datatype Progress = Progress(challenges: map<Key, Completion>, credit: int, changed: bool, awards: seq<Award>)
  datatype Award = Award(key: Key, amount: int)

  function RecordAt(challenges: map<Key, Completion>, key: Key): Completion {
    if key in challenges then challenges[key] else UNSTARTED
  }

  function AwardOne(s: Schedule, r: Rule, p: Progress, events: seq<Event>, now: nat): Progress
    requires s.cycleSeconds > 0
  {
    var cur := Current(s, r, Unix(now));
    if cur.None? then p else
      var key := KeyOf(r, cur.value);
      var record := RecordAt(p.challenges, key);
      if record.completed != 0 then p else
        var t := Track(r, cur.value, now, record, events);
        if !t.changed then p else
          Progress(p.challenges[key := t.record], p.credit + if t.done then r.reward else 0, true,
                   p.awards + if t.done then [Award(key, r.reward)] else [])
  }

  function AwardAll(s: Schedule, rules: seq<Rule>, challenges: map<Key, Completion>, events: seq<Event>, now: nat): Progress
    requires s.cycleSeconds > 0
  {
    if rules == [] then Progress(challenges, 0, false, [])
    else AwardOne(s, rules[|rules|-1], AwardAll(s, rules[..|rules|-1], challenges, events, now), events, now)
  }

  function ChallengesStored(s: Schedule, a: Account, events: seq<Event>, now: nat): Account
    requires s.cycleSeconds > 0
  {
    var p := AwardAll(s, s.rules, a.challenges, events, now);
    if p.changed then a.(challenges := p.challenges, coins := a.coins + p.credit) else a
  }

  // ---------- replaying a report ----------

  /** The occurrences of counted events in a report. */
  ghost function Counted(r: Rule, slot: Slot, events: seq<Event>, now: nat): multiset<Event> {
    if events == [] then multiset{}
    else
      var e := events[|events|-1];
      Counted(r, slot, events[..|events|-1], now) + if Counts(r, slot, e, now) then multiset{e} else multiset{}
  }

  /** What tracking `seen` has done to a record. */
  ghost predicate Tracked(record: Completion, seen: multiset<Event>, t: Tracking) {
    && (!t.done ==> t.seen == seen <= t.record.receipts && record.receipts <= t.record.receipts)
    && (!t.changed ==> !t.done && t.record == record)
    && (!t.done ==> t.record.completed == record.completed)
  }

  /** One more occurrence of `e`, with a receipt or without. */
  lemma OneMore(receipts: multiset<Event>, seen: multiset<Event>, e: Event)
    requires seen <= receipts
    ensures var s := seen + multiset{e};
      if receipts[e] >= s[e] then s <= receipts else s <= receipts[e := s[e]] && receipts <= receipts[e := s[e]]
  {
  }

  /** Crediting an event leaves the receipts alone, or completes the record at its time. */
  lemma CreditShape(r: Rule, target: nat, t: Tracking, e: Event)
    requires !t.done
    ensures var c := Credit(r, target, t, e);
      && c.seen == t.seen && c.changed == t.changed
      && if c.done then c.record.completed == e.timestamp
         else c.record.receipts == t.record.receipts && c.record.completed == t.record.completed
  {
    hide Increment, Sub64, Add64, BattleMode;
  }

  lemma TrackOneSeen(r: Rule, slot: Slot, now: nat, record: Completion, seen: multiset<Event>, t: Tracking, e: Event)
    requires Tracked(record, seen, t)
    ensures Tracked(record, if Counts(r, slot, e, now) then seen + multiset{e} else seen, TrackOne(r, slot, now, t, e))
    ensures TrackOne(r, slot, now, t, e).done ==>
      if t.done then TrackOne(r, slot, now, t, e) == t else Counts(r, slot, e, now) && TrackOne(r, slot, now, t, e).record.completed == e.timestamp
  {
    hide Counts, Credit;
    if !t.done && Counts(r, slot, e, now) {
      OneMore(t.record.receipts, t.seen, e);
      var s := t.seen + multiset{e};
      if t.record.receipts[e] < s[e] {
        CreditShape(r, slot.period.target, Tracking(t.record.(receipts := t.record.receipts[e := s[e]]), s, false, true), e);
      }
    }
  }

  lemma {:induction false} TrackSeen(r: Rule, slot: Slot, now: nat, record: Completion, events: seq<Event>)
    ensures Tracked(record, Counted(r, slot, events, now), Track(r, slot, now, record, events))
    ensures Track(r, slot, now, record, events).done ==>
      exists e :: e in events && Counts(r, slot, e, now) && Track(r, slot, now, record, events).record.completed == e.timestamp
  {
    if events != [] {
      var before, e := events[..|events|-1], events[|events|-1];
      assert events == before + [e];
      TrackSeen(r, slot, now, record, before);
      TrackOneSeen(r, slot, now, record, Counted(r, slot, before, now), Track(r, slot, now, record, before), e);
      hide Counts, Tracked, TrackOne;
      assert Counted(r, slot, before, now) + multiset{} == Counted(r, slot, before, now);
    }
  }

  lemma {:induction false} TrackAgain(r: Rule, slot: Slot, now: nat, record: Completion, events: seq<Event>)
    requires Counted(r, slot, events, now) <= record.receipts
    ensures var t := Track(r, slot, now, record, events);
      t.record == record && !t.changed && !t.done && t.seen == Counted(r, slot, events, now)
  {
    if events != [] {
      TrackAgain(r, slot, now, record, events[..|events|-1]);
      hide Counts;
    }
  }

  /** Nothing in this report would move the rule again. */
  ghost predicate RuleSettled(s: Schedule, r: Rule, challenges: map<Key, Completion>, events: seq<Event>, now: nat)
    requires s.cycleSeconds > 0
  {
    var cur := Current(s, r, Unix(now));
    cur.Some? ==>
      var record := RecordAt(challenges, KeyOf(r, cur.value));
      record.completed != 0 || !Track(r, cur.value, now, record, events).changed
  }

  ghost predicate StartsLate(s: Schedule) { s.cycleStart > 0 && forall r :: r in s.rules ==> forall p :: p in r.periods ==> p.start >= 0 }

  lemma StartPositive(s: Schedule, r: Rule, t: int)
    requires s.cycleSeconds > 0 && StartsLate(s) && r in s.rules && Current(s, r, t).Some?
    ensures Current(s, r, t).value.start > 0
  {
    FindSome(r.periods, 0, s.cycleStart + CycleOf(s, t) * s.cycleSeconds, t);
    assert CycleOf(s, t) >= 0;
    assert CycleOf(s, t) * s.cycleSeconds >= 0;
  }

  lemma AwardSettles(s: Schedule, r: Rule, p: Progress, events: seq<Event>, now: nat)
    requires s.cycleSeconds > 0 && StartsLate(s) && r in s.rules
    ensures RuleSettled(s, r, AwardOne(s, r, p, events, now).challenges, events, now)
  {
    var cur := Current(s, r, Unix(now));
    if cur.Some? {
      var record := RecordAt(p.challenges, KeyOf(r, cur.value));
      StartPositive(s, r, Unix(now));
      TrackSeen(r, cur.value, now, record, events);
      var t := Track(r, cur.value, now, record, events);
      if !t.done { TrackAgain(r, cur.value, now, t.record, events); }
      hide Track, Current;
    }
  }

  /** Rules have different names, so they keep different records. */
  ghost predicate NamesOnce(rules: seq<Rule>) {
    forall i, j :: 0 <= i < j < |rules| ==> rules[i].name != rules[j].name
  }

  lemma AwardElsewhere(s: Schedule, r: Rule, o: Rule, p: Progress, events: seq<Event>, now: nat)
    requires s.cycleSeconds > 0 && r.name != o.name && RuleSettled(s, o, p.challenges, events, now)
    ensures RuleSettled(s, o, AwardOne(s, r, p, events, now).challenges, events, now)
  {
    hide Track, Current;
  }

  lemma {:induction false} AllSettled(s: Schedule, rules: seq<Rule>, challenges: map<Key, Completion>, events: seq<Event>, now: nat)
    requires s.cycleSeconds > 0 && StartsLate(s) && NamesOnce(rules) && forall r :: r in rules ==> r in s.rules
    ensures forall r :: r in rules ==> RuleSettled(s, r, AwardAll(s, rules, challenges, events, now).challenges, events, now)
  {
    if rules != [] {
      var before, r := rules[..|rules|-1], rules[|rules|-1];
      assert rules == before + [r];
      AllSettled(s, before, challenges, events, now);
      var p := AwardAll(s, before, challenges, events, now);
      AwardSettles(s, r, p, events, now);
      hide RuleSettled, AwardOne;
      forall o | o in before ensures RuleSettled(s, o, AwardOne(s, r, p, events, now).challenges, events, now) {
        var i :| 0 <= i < |before| && before[i] == o;
        assert rules[i].name != rules[|rules|-1].name;
        AwardElsewhere(s, r, o, p, events, now);
      }
    }
  }

  lemma {:induction false} SettledStays(s: Schedule, rules: seq<Rule>, challenges: map<Key, Completion>, events: seq<Event>, now: nat)
    requires s.cycleSeconds > 0 && forall r :: r in rules ==> RuleSettled(s, r, challenges, events, now)
    ensures AwardAll(s, rules, challenges, events, now) == Progress(challenges, 0, false, [])
  {
    if rules != [] {
      var r := rules[|rules|-1];
      assert r in rules && RuleSettled(s, r, challenges, events, now);
      SettledStays(s, rules[..|rules|-1], challenges, events, now);
      hide Track, Current;
    }
  }

  /** The step is idempotent, whatever else changed in the account meanwhile. */
  lemma ChallengesSettled(s: Schedule, a: Account, b: Account, events: seq<Event>, now: nat)
    requires s.cycleSeconds > 0 && StartsLate(s) && NamesOnce(s.rules)
    requires b.challenges == ChallengesStored(s, a, events, now).challenges
    ensures ChallengesStored(s, b, events, now) == b
  {
    AllSettled(s, s.rules, a.challenges, events, now);
    UnchangedMeansSame(s, s.rules, a.challenges, events, now);
    SettledStays(s, s.rules, b.challenges, events, now);
  }

  lemma {:induction false} UnchangedMeansSame(s: Schedule, rules: seq<Rule>, challenges: map<Key, Completion>, events: seq<Event>, now: nat)
    requires s.cycleSeconds > 0
    ensures var p := AwardAll(s, rules, challenges, events, now); !p.changed ==> p.challenges == challenges && p.credit == 0 && p.awards == []
  {
    if rules != [] {
      UnchangedMeansSame(s, rules[..|rules|-1], challenges, events, now);
      hide Track, Current;
    }
  }
}
