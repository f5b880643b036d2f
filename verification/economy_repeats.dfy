/** The same report sent again: attempts that fail half way, attempts at other times, and
    repetitions long after, with anything else in between (ctr_achievements.go:24-57). */
module Repeats {
  import opened Common
  import opened EconomyTypes
  import opened RaceAwards
  import opened PitStopRefresh
  import opened Challenges
  import opened Purchases
  import opened Ledger

  // ---------- when the time of an attempt makes no difference ----------

  ghost predicate RacesAgree(rates: Rates, events: seq<Event>, t: nat, u: nat) {
    forall e :: e in events ==> (Qualifies(rates, e, t) <==> Qualifies(rates, e, u))
  }

  ghost predicate RefreshAgrees(events: seq<Event>, t: nat, u: nat) {
    DayOf(t) == DayOf(u) && forall e :: e in events ==> (PitStopRefresh.Counts(e, t) <==> PitStopRefresh.Counts(e, u))
  }

  /** The rule is in the same period at both times, and the same events count. */
  ghost predicate RuleAgrees(s: Schedule, r: Rule, events: seq<Event>, t: nat, u: nat)
    requires s.cycleSeconds > 0
  {
    && Current(s, r, Unix(t)) == Current(s, r, Unix(u))
    && (Current(s, r, Unix(u)).Some? ==> CountsAgree(r, Current(s, r, Unix(u)).value, events, t, u))
  }

  ghost predicate CountsAgree(r: Rule, slot: Challenges.Slot, events: seq<Event>, t: nat, u: nat) {
    forall e :: e in events ==> (Challenges.Counts(r, slot, e, t) <==> Challenges.Counts(r, slot, e, u))
  }

  ghost predicate RulesAgree(s: Schedule, rules: seq<Rule>, events: seq<Event>, t: nat, u: nat)
    requires s.cycleSeconds > 0
  {
    forall r :: r in rules ==> RuleAgrees(s, r, events, t, u)
  }

  /** Two deliveries of the same events, at times of the same day and the same challenge periods
      at which the same events are neither too old nor ahead of the clock. */
  ghost predicate Agrees(env: Env, q: Delivery, r: Delivery)
    requires Usable(env)
  {
    && q.events == r.events
    && RacesAgree(env.rates, r.events, q.racesAt, r.racesAt)
    && RefreshAgrees(r.events, q.refreshAt, r.refreshAt)
    && RulesAgree(env.schedule, env.schedule.rules, r.events, q.challengesAt, r.challengesAt)
  }

  lemma {:induction false} PaySame(rates: Rates, book: RaceBook, events: seq<Event>, t: nat, u: nat)
    requires HasRates(rates) && RacesAgree(rates, events, t, u)
    ensures PayRaces(rates, book, events, t) == PayRaces(rates, book, events, u)
  {
    if events != [] {
      assert events[|events|-1] in events;
      PaySame(rates, book, events[..|events|-1], t, u);
      hide Qualifies, Payout, AfterRace;
    }
  }

  lemma {:induction false} SpendSame(record: PitStop, events: seq<Event>, t: nat, u: nat)
    requires RefreshAgrees(events, t, u)
    ensures Spend(record, events, t) == Spend(record, events, u)
  {
    if events != [] {
      assert events[|events|-1] in events;
      SpendSame(record, events[..|events|-1], t, u);
      hide PitStopRefresh.Counts;
    }
  }

  lemma {:induction false} TrackSame(r: Rule, slot: Challenges.Slot, record: Completion, events: seq<Event>, t: nat, u: nat)
    requires CountsAgree(r, slot, events, t, u)
    ensures Track(r, slot, t, record, events) == Track(r, slot, u, record, events)
    ensures Counted(r, slot, events, t) == Counted(r, slot, events, u)
  {
    if events != [] {
      assert events[|events|-1] in events;
      TrackSame(r, slot, record, events[..|events|-1], t, u);
      hide Challenges.Counts, Credit;
    }
  }

  lemma {:induction false} AwardSame(s: Schedule, rules: seq<Rule>, challenges: map<Key, Completion>, events: seq<Event>, t: nat, u: nat)
    requires s.cycleSeconds > 0 && RulesAgree(s, rules, events, t, u)
    ensures AwardAll(s, rules, challenges, events, t) == AwardAll(s, rules, challenges, events, u)
    decreases |rules|
  {
    if rules != [] {
      var before, r := rules[..|rules|-1], rules[|rules|-1];
      assert r in rules;
      AwardSame(s, before, challenges, events, t, u);
      AwardOneSame(s, r, AwardAll(s, before, challenges, events, u), events, t, u);
      hide AwardOne, RuleAgrees;
    }
  }

  lemma AwardOneSame(s: Schedule, r: Rule, p: Progress, events: seq<Event>, t: nat, u: nat)
    requires s.cycleSeconds > 0 && RuleAgrees(s, r, events, t, u)
    ensures AwardOne(s, r, p, events, t) == AwardOne(s, r, p, events, u)
  {
    var cur := Current(s, r, Unix(u));
    if cur.Some? { TrackSame(r, cur.value, RecordAt(p.challenges, KeyOf(r, cur.value)), events, t, u); }
    hide Current, Track, CountsAgree;
  }

  /** An attempt at another such time does the same. */
  lemma TrySame(env: Env, a: Account, q: Delivery, r: Delivery, f: Faults)
    requires Usable(env) && Agrees(env, q, r)
    ensures Try(env, a, q, f) == Try(env, a, r, f)
  {
    PaySame(env.rates, a.races, r.events, q.racesAt, r.racesAt);
    assert RacesStep(env, a, q, f.races) == RacesStep(env, a, r, f.races);
    var b := RacesStep(env, a, r, f.races).account;
    RefreshSame(b, q, r, f.refresh);
    var c := RefreshStep(b, r, f.refresh).account;
    AwardSame(env.schedule, env.schedule.rules, c.challenges, r.events, q.challengesAt, r.challengesAt);
    assert ChallengesStep(env, c, q, f.challenges) == ChallengesStep(env, c, r, f.challenges);
    hide RacesStep, RefreshStep, ChallengesStep, Agrees;
  }

  lemma RefreshSame(a: Account, q: Delivery, r: Delivery, f: Fault)
    requires q.events == r.events && RefreshAgrees(r.events, q.refreshAt, r.refreshAt)
    ensures RefreshStep(a, q, f) == RefreshStep(a, r, f)
  {
    SpendSame(Today(a.pitStop, r.refreshAt), r.events, q.refreshAt, r.refreshAt);
    hide DayOf, Spend, AsksRefresh;
  }

  // ---------- retrying equals doing it once ----------

  datatype Sent = Sent(delivery: Delivery, faults: Faults)

  /** One attempt after another. */
  function Retry(env: Env, a: Account, tries: seq<Sent>): Attempt
    requires Usable(env)
  {
    if tries == [] then Attempt(a, false)
    else
      var before := Retry(env, a, tries[..|tries|-1]);
      var last := Try(env, before.account, tries[|tries|-1].delivery, tries[|tries|-1].faults);
      Attempt(last.account, before.ok || last.ok)
  }

  /** The account after the first `k` steps of a failure-free run. */
  function Stage(env: Env, a: Account, r: Delivery, k: nat): Account
    requires Usable(env) && k <= 3
  {
    if k == 0 then a
    else if k == 1 then RacesStored(env.rates, a, r.events, r.racesAt)
    else if k == 2 then RefreshStored(Stage(env, a, r, 1), r.events, r.refreshAt)
    else ChallengesStored(env.schedule, Stage(env, a, r, 2), r.events, r.challengesAt)
  }

  /** The steps touch different parts of the account. */
  lemma StageParts(env: Env, a: Account, r: Delivery)
    requires Usable(env)
    ensures Stage(env, a, r, 2).races == Stage(env, a, r, 1).races
    ensures Stage(env, a, r, 3).races == Stage(env, a, r, 1).races && Stage(env, a, r, 3).pitStop == Stage(env, a, r, 2).pitStop
    ensures Stage(env, a, r, 3).challenges == ChallengesStored(env.schedule, Stage(env, a, r, 2), r.events, r.challengesAt).challenges
    ensures Stage(env, a, r, 2).pitStop == RefreshStored(Stage(env, a, r, 1), r.events, r.refreshAt).pitStop
    ensures Stage(env, a, r, 1).races == RacesStored(env.rates, a, r.events, r.racesAt).races
  {
    var s1, s2, s3 := Stage(env, a, r, 1), Stage(env, a, r, 2), Stage(env, a, r, 3);
    assert s1 == RacesStored(env.rates, a, r.events, r.racesAt);
    assert s2 == RefreshStored(s1, r.events, r.refreshAt);
    assert s3 == ChallengesStored(env.schedule, s2, r.events, r.challengesAt);
    hide PayRaces, Spend, AwardAll;
  }

  lemma RacesAtStage(env: Env, a: Account, r: Delivery, k: nat)
    requires CatalogOk(env) && k <= 3
    ensures RacesStored(env.rates, Stage(env, a, r, k), r.events, r.racesAt) == Stage(env, a, r, if k == 0 then 1 else k)
  {
    StageParts(env, a, r);
    hide RacesStored, CatalogOk;
    if k > 0 {
      assert Stage(env, a, r, k).races == Stage(env, a, r, 1).races;
      RacesSettled(env.rates, a, Stage(env, a, r, k), r.events, r.racesAt);
    }
  }

  lemma RefreshAtStage(env: Env, a: Account, r: Delivery, k: nat)
    requires CatalogOk(env) && 1 <= k <= 3
    ensures RefreshStored(Stage(env, a, r, k), r.events, r.refreshAt) == Stage(env, a, r, if k == 1 then 2 else k)
  {
    StageParts(env, a, r);
    hide RefreshStored, CatalogOk;
    if k > 1 {
      assert Stage(env, a, r, k).pitStop == Stage(env, a, r, 2).pitStop;
      RefreshSettled(Stage(env, a, r, 1), Stage(env, a, r, k), r.events, r.refreshAt);
    }
  }

  lemma ChallengesAtStage(env: Env, a: Account, r: Delivery, k: nat)
    requires CatalogOk(env) && 2 <= k <= 3
    ensures ChallengesStored(env.schedule, Stage(env, a, r, k), r.events, r.challengesAt) == Stage(env, a, r, 3)
  {
    if k > 2 { ChallengesSettled(env.schedule, Stage(env, a, r, 2), Stage(env, a, r, k), r.events, r.challengesAt); }
    hide PayRaces, Spend, AwardAll;
  }

  /** One attempt moves from a stage to a stage, forward, and reaches the last if it succeeds. */
  lemma TryAtStage(env: Env, a: Account, r: Delivery, f: Faults, k: nat) returns (m: nat)
    requires CatalogOk(env) && k <= 3
    ensures k <= m <= 3 && Try(env, Stage(env, a, r, k), r, f).account == Stage(env, a, r, m)
    ensures Try(env, Stage(env, a, r, k), r, f).ok ==> m == 3
  {
    hide RacesStored, RefreshStored, ChallengesStored, RacesSave, RefreshSaves, ChallengesSave, Stage;
    RacesAtStage(env, a, r, k);
    m := k;
    if RacesStep(env, Stage(env, a, r, k), r, f.races).ok {
      m := if k == 0 then 1 else k;
      RefreshAtStage(env, a, r, m);
      if RefreshStep(Stage(env, a, r, m), r, f.refresh).ok {
        m := if m == 1 then 2 else m;
        ChallengesAtStage(env, a, r, m);
        if ChallengesStep(env, Stage(env, a, r, m), r, f.challenges).ok { m := 3; }
      }
    }
  }

  lemma {:induction false} RetryAtStage(env: Env, a: Account, r: Delivery, tries: seq<Sent>) returns (k: nat)
    requires CatalogOk(env) && forall t :: t in tries ==> Agrees(env, t.delivery, r)
    ensures k <= 3 && Retry(env, a, tries).account == Stage(env, a, r, k)
    ensures Retry(env, a, tries).ok ==> k == 3
    decreases |tries|
  {
    if tries == [] {
      k := 0;
    } else {
      var last := tries[|tries|-1];
      assert last in tries;
      var j := RetryAtStage(env, a, r, tries[..|tries|-1]);
      TrySame(env, Stage(env, a, r, j), last.delivery, r, last.faults);
      k := TryAtStage(env, a, r, last.faults, j);
      hide Try, Stage, CatalogOk, Agrees;
    }
  }

  /** Retry equals once: whatever fails in between, however often the report is sent and at
      whatever agreeing times, as soon as one attempt has succeeded the stored account is the one a
      single failure-free delivery leaves, and further attempts leave it there. */
  lemma RetryEqualsOnce(env: Env, a: Account, r: Delivery, tries: seq<Sent>)
    requires CatalogOk(env) && Retry(env, a, tries).ok && forall t :: t in tries ==> Agrees(env, t.delivery, r)
    ensures Retry(env, a, tries).account == Try(env, a, r, Faults(NoFault, NoFault, NoFault)).account
    ensures Try(env, a, r, Faults(NoFault, NoFault, NoFault)).ok
  {
    var k := RetryAtStage(env, a, r, tries);
    var m := TryAtStage(env, a, r, Faults(NoFault, NoFault, NoFault), 0);
    hide RacesStored, RefreshStored, ChallengesStored, Retry, Agrees;
  }

  // ---------- a report that has been counted ----------

  /** A race that earns nothing, whatever was raced online that day. */
  predicate Worthless(rates: Rates, e: Event)
    requires HasRates(rates)
  {
    e.Val("Track") in rates && e.Val("Rank") >= 1 && Payout(rates, map[], e) == 0
  }

  ghost predicate RacesDone(rates: Rates, book: RaceBook, events: seq<Event>, now: nat)
    requires HasRates(rates)
  {
    forall e :: e in events && Qualifies(rates, e, now) ==> e in book.receipts || Worthless(rates, e)
  }

  ghost predicate RefreshDone(p: Option<PitStop>, events: seq<Event>, now: nat) {
    forall e :: e in events && PitStopRefresh.Counts(e, now) ==>
      e in Today(p, now).receipts || Today(p, now).count >= DAILY_LIMIT
  }

  ghost predicate RuleDone(s: Schedule, r: Rule, challenges: map<Key, Completion>, events: seq<Event>, now: nat)
    requires s.cycleSeconds > 0
  {
    var cur := Current(s, r, Unix(now));
    cur.Some? ==> Credited(RecordAt(challenges, KeyOf(r, cur.value)), Counted(r, cur.value, events, now))
  }

  /** Complete, or everything in `bag` has been credited. */
  ghost predicate Credited(record: Completion, bag: multiset<Event>) { record.completed != 0 || bag <= record.receipts }

  ghost predicate RulesDone(s: Schedule, rules: seq<Rule>, challenges: map<Key, Completion>, events: seq<Event>, now: nat)
    requires s.cycleSeconds > 0
  {
    forall r :: r in rules ==> RuleDone(s, r, challenges, events, now)
  }

  /** There is nothing left in the report for the account. */
  ghost predicate Done(env: Env, a: Account, r: Delivery)
    requires Usable(env)
  {
    && RacesDone(env.rates, a.races, r.events, r.racesAt)
    && RefreshDone(a.pitStop, r.events, r.refreshAt)
    && RulesDone(env.schedule, env.schedule.rules, a.challenges, r.events, r.challengesAt)
  }

  // ---------- a success leaves nothing ----------

  /** A payment of nothing is for a worthless race. */
  lemma {:induction false} PaidNothing(rates: Rates, book: RaceBook, events: seq<Event>, now: nat)
    requires HasRates(rates) && RatesOk(rates)
    ensures forall p :: p in PayRaces(rates, book, events, now).paid && p.amount == 0 ==> Worthless(rates, p.event)
  {
    if events != [] {
      var before, e := events[..|events|-1], events[|events|-1];
      PaidNothing(rates, book, before, now);
      var run := PayRaces(rates, book, before, now);
      if Qualifies(rates, e, now) && Payout(rates, run.book.online, e) == 0 { PayoutNothing(rates, run.book.online, map[], e); }
      hide Payout, RatesOk;
    }
  }

  lemma PayoutNothing(rates: Rates, online: map<int, nat>, other: map<int, nat>, e: Event)
    requires HasRates(rates) && RatesOk(rates) && e.Val("Track") in rates && e.Val("Rank") >= 1
    requires Payout(rates, online, e) == 0
    ensures Payout(rates, other, e) == 0
  {
    var place := rates[e.Val("Track")][Min(e.Val("Rank") - 1, 3)];
    assert place >= 0;
    var full := place * Min(e.Val("CompletedLap"), 8);
    assert full >= 0;
    hide Weekend, Played, Day;
  }

  lemma {:induction false} ZeroParts(paid: seq<Payment>)
    requires Total(paid) == 0 && forall p :: p in paid ==> p.amount >= 0
    ensures forall p :: p in paid ==> p.amount == 0
  {
    if paid != [] {
      var front, last := paid[..|paid|-1], paid[|paid|-1];
      assert last in paid;
      NonNegativeTotal(front);
      ZeroParts(front);
      assert paid == front + [last];
    }
  }

  lemma {:induction false} NonNegativeTotal(paid: seq<Payment>)
    requires forall p :: p in paid ==> p.amount >= 0
    ensures Total(paid) >= 0
  {
    if paid != [] {
      assert paid[|paid|-1] in paid;
      NonNegativeTotal(paid[..|paid|-1]);
    }
  }

  lemma RacesLeaveNothing(rates: Rates, a: Account, events: seq<Event>, now: nat)
    requires HasRates(rates) && RatesOk(rates)
    ensures RacesDone(rates, RacesStored(rates, a, events, now).races, events, now)
  {
    var run := PayRaces(rates, a.races, events, now);
    RacesPaidOnce(rates, a.races, events, now);
    if Total(run.paid) == 0 {
      PaymentsNonNegative(rates, a.races, events, now);
      ZeroParts(run.paid);
      PaidNothing(rates, a.races, events, now);
    }
    hide Qualifies, Worthless, RatesOk, PayRaces;
  }

  lemma RefreshLeavesNothing(a: Account, events: seq<Event>, now: nat)
    ensures RefreshDone(RefreshStored(a, events, now).pitStop, events, now)
  {
    SpendFrame(Today(a.pitStop, now), events, now);
    hide PitStopRefresh.Counts, Spend, DayOf;
  }

  lemma AwardLeavesNothing(s: Schedule, r: Rule, p: Progress, events: seq<Event>, now: nat)
    requires s.cycleSeconds > 0 && StartsLate(s) && r in s.rules
    ensures RuleDone(s, r, AwardOne(s, r, p, events, now).challenges, events, now)
  {
    var cur := Current(s, r, Unix(now));
    if cur.Some? {
      var record := RecordAt(p.challenges, KeyOf(r, cur.value));
      StartPositive(s, r, Unix(now));
      TrackSeen(r, cur.value, now, record, events);
      hide Track, Current, StartsLate, Counted;
    }
  }

  // ---------- nothing brings it back ----------

  /** A record only ever gains receipts, until it is complete. */
  ghost predicate Later(was: Completion, after: Completion) {
    after.completed != 0 || (was.completed == 0 && was.receipts <= after.receipts)
  }

  ghost predicate AllLater(was: map<Key, Completion>, after: map<Key, Completion>) {
    forall key :: Later(RecordAt(was, key), RecordAt(after, key))
  }

  lemma AwardOneLater(s: Schedule, r: Rule, p: Progress, events: seq<Event>, now: nat)
    requires s.cycleSeconds > 0 && StartsLate(s) && r in s.rules
    ensures AllLater(p.challenges, AwardOne(s, r, p, events, now).challenges)
  {
    var cur := Current(s, r, Unix(now));
    if cur.Some? {
      StartPositive(s, r, Unix(now));
      TrackSeen(r, cur.value, now, RecordAt(p.challenges, KeyOf(r, cur.value)), events);
      hide Track, Current, StartsLate, Counted;
    }
  }

  lemma LaterTransitive(a: map<Key, Completion>, b: map<Key, Completion>, c: map<Key, Completion>)
    requires AllLater(a, b) && AllLater(b, c)
    ensures AllLater(a, c)
  {
    forall key ensures Later(RecordAt(a, key), RecordAt(c, key)) {
      assert Later(RecordAt(a, key), RecordAt(b, key)) && Later(RecordAt(b, key), RecordAt(c, key));
    }
    hide RecordAt;
  }

  lemma SameIsLater(a: map<Key, Completion>)
    ensures AllLater(a, a)
  {
  }

  lemma {:induction false} AwardAllLater(s: Schedule, rules: seq<Rule>, challenges: map<Key, Completion>, events: seq<Event>, now: nat)
    requires s.cycleSeconds > 0 && StartsLate(s) && forall r :: r in rules ==> r in s.rules
    ensures AllLater(challenges, AwardAll(s, rules, challenges, events, now).challenges)
    decreases |rules|
  {
    if rules == [] { SameIsLater(challenges); } else {
      var before, r := rules[..|rules|-1], rules[|rules|-1];
      var p := AwardAll(s, before, challenges, events, now);
      AwardAllLater(s, before, challenges, events, now);
      AwardOneLater(s, r, p, events, now);
      LaterTransitive(challenges, p.challenges, AwardOne(s, r, p, events, now).challenges);
      hide AwardOne, AllLater, StartsLate;
    }
  }

  lemma DoneLater(s: Schedule, r: Rule, was: map<Key, Completion>, after: map<Key, Completion>, events: seq<Event>, now: nat)
    requires s.cycleSeconds > 0 && RuleDone(s, r, was, events, now) && AllLater(was, after)
    ensures RuleDone(s, r, after, events, now)
  {
    var cur := Current(s, r, Unix(now));
    if cur.Some? { assert Later(RecordAt(was, KeyOf(r, cur.value)), RecordAt(after, KeyOf(r, cur.value))); }
    hide Current, Counted, RecordAt;
  }

  lemma RulesDoneLater(s: Schedule, rules: seq<Rule>, was: map<Key, Completion>, after: map<Key, Completion>, events: seq<Event>, now: nat)
    requires s.cycleSeconds > 0 && RulesDone(s, rules, was, events, now) && AllLater(was, after)
    ensures RulesDone(s, rules, after, events, now)
  {
    hide RuleDone, AllLater;
    forall r | r in rules ensures RuleDone(s, r, after, events, now) { DoneLater(s, r, was, after, events, now); }
  }

  lemma StoredLater(s: Schedule, a: Account, events: seq<Event>, now: nat)
    requires s.cycleSeconds > 0 && StartsLate(s)
    ensures AllLater(a.challenges, ChallengesStored(s, a, events, now).challenges)
  {
    AwardAllLater(s, s.rules, a.challenges, events, now);
    SameIsLater(a.challenges);
    hide AwardAll, AllLater, StartsLate;
  }

  lemma {:induction false} RulesLeaveNothing(s: Schedule, rules: seq<Rule>, challenges: map<Key, Completion>, events: seq<Event>, now: nat)
    requires s.cycleSeconds > 0 && StartsLate(s) && forall r :: r in rules ==> r in s.rules
    ensures RulesDone(s, rules, AwardAll(s, rules, challenges, events, now).challenges, events, now)
    decreases |rules|
  {
    if rules != [] {
      var before, r := rules[..|rules|-1], rules[|rules|-1];
      assert rules == before + [r];
      var p := AwardAll(s, before, challenges, events, now);
      RulesLeaveNothing(s, before, challenges, events, now);
      AwardOneLater(s, r, p, events, now);
      RulesDoneLater(s, before, p.challenges, AwardOne(s, r, p, events, now).challenges, events, now);
      AwardLeavesNothing(s, r, p, events, now);
      hide AwardOne, AllLater, StartsLate, RuleDone;
    }
  }

  lemma ChallengesLeaveNothing(s: Schedule, a: Account, events: seq<Event>, now: nat)
    requires s.cycleSeconds > 0 && StartsLate(s)
    ensures RulesDone(s, s.rules, ChallengesStored(s, a, events, now).challenges, events, now)
  {
    RulesLeaveNothing(s, s.rules, a.challenges, events, now);
    UnchangedMeansSame(s, s.rules, a.challenges, events, now);
    hide AwardAll, RulesDone, StartsLate;
  }

  lemma RacesStayDone(rates: Rates, a: Account, others: seq<Event>, t: nat, events: seq<Event>, now: nat)
    requires HasRates(rates) && RacesDone(rates, a.races, events, now)
    ensures RacesDone(rates, RacesStored(rates, a, others, t).races, events, now)
  {
    RacesPaidOnce(rates, a.races, others, t);
    hide Qualifies, Worthless, PayRaces;
  }

  lemma {:induction false} SpendGrows(record: PitStop, events: seq<Event>, now: nat)
    ensures record.receipts <= Spend(record, events, now).record.receipts && record.count <= Spend(record, events, now).record.count
    ensures Spend(record, events, now).record.day == record.day
  {
    if events != [] {
      SpendGrows(record, events[..|events|-1], now);
      hide PitStopRefresh.Counts;
    }
  }

  lemma RefreshStaysDone(a: Account, others: seq<Event>, t: nat, events: seq<Event>, now: nat)
    requires RefreshDone(a.pitStop, events, now) && (DayOf(t) == DayOf(now) || !AsksRefresh(others))
    ensures RefreshDone(RefreshStored(a, others, t).pitStop, events, now)
  {
    SpendGrows(Today(a.pitStop, t), others, t);
    if !AsksRefresh(others) { NoRefreshAsked(a, others, t); }
    hide PitStopRefresh.Counts, Spend, DayOf, AsksRefresh;
  }

  lemma NoRefreshAsked(a: Account, others: seq<Event>, t: nat)
    requires !AsksRefresh(others)
    ensures RefreshStored(a, others, t) == a
  {
    SpendFrame(Today(a.pitStop, t), others, t);
    hide Spend;
  }

  // ---------- what the steps leave alone ----------

  lemma StepParts(env: Env, a: Account, r: Delivery)
    requires Usable(env)
    ensures var b := RacesStored(env.rates, a, r.events, r.racesAt); b.pitStop == a.pitStop && b.challenges == a.challenges
    ensures var b := RefreshStored(a, r.events, r.refreshAt); b.races == a.races && b.challenges == a.challenges
    ensures var b := ChallengesStored(env.schedule, a, r.events, r.challengesAt); b.races == a.races && b.pitStop == a.pitStop
  {
    hide PayRaces, Spend, AwardAll;
  }

  lemma RacesKeepDone(env: Env, a: Account, q: Delivery, r: Delivery)
    requires CatalogOk(env) && Done(env, a, r)
    ensures Done(env, RacesStored(env.rates, a, q.events, q.racesAt), r)
  {
    StepParts(env, a, q);
    RacesStayDone(env.rates, a, q.events, q.racesAt, r.events, r.racesAt);
    hide RacesDone, RefreshDone, RulesDone, RacesStored, CatalogOk;
  }

  lemma RefreshKeepsDone(env: Env, a: Account, q: Delivery, r: Delivery)
    requires CatalogOk(env) && Done(env, a, r) && (DayOf(q.refreshAt) == DayOf(r.refreshAt) || !AsksRefresh(q.events))
    ensures Done(env, RefreshStored(a, q.events, q.refreshAt), r)
  {
    StepParts(env, a, q);
    RefreshStaysDone(a, q.events, q.refreshAt, r.events, r.refreshAt);
    hide RacesDone, RefreshDone, RulesDone, RefreshStored, CatalogOk, DayOf, AsksRefresh;
  }

  lemma ChallengesKeepDone(env: Env, a: Account, q: Delivery, r: Delivery)
    requires CatalogOk(env) && Done(env, a, r)
    ensures Done(env, ChallengesStored(env.schedule, a, q.events, q.challengesAt), r)
  {
    StepParts(env, a, q);
    StoredLater(env.schedule, a, q.events, q.challengesAt);
    hide RacesDone, RefreshDone, RulesDone, ChallengesStored, AllLater;
    RulesDoneLater(env.schedule, env.schedule.rules, a.challenges,
                   ChallengesStored(env.schedule, a, q.events, q.challengesAt).challenges, r.events, r.challengesAt);
  }

  /** Requests of other days start a new record of refreshes; others do not come between. */
  predicate SameDay(op: Op, day: int) {
    op.Reported? ==> DayOf(op.report.refreshAt) == day || !AsksRefresh(op.report.events)
  }

  /** What has been counted stays counted, whatever is reported or bought. */
  lemma OpKeepsDone(env: Env, b: Books, op: Op, r: Delivery)
    requires CatalogOk(env) && Done(env, b.account, r) && SameDay(op, DayOf(r.refreshAt))
    ensures Done(env, Apply(env, b, op).account, r)
  {
    match op
    case Reported(q, f) =>
      BooksAreStored(env, b, q, f);
      TryKeepsDone(env, b.account, q, f, r);
      hide BookReport, Try, Done, CatalogOk, SameDay;
    case Purchase(skus, f) =>
      hide Bought, RacesDone, RefreshDone, RulesDone, CatalogOk, SameDay;
  }

  lemma TryKeepsDone(env: Env, a: Account, q: Delivery, f: Faults, r: Delivery)
    requires CatalogOk(env) && Done(env, a, r) && (DayOf(q.refreshAt) == DayOf(r.refreshAt) || !AsksRefresh(q.events))
    ensures Done(env, Try(env, a, q, f).account, r)
  {
    RacesKeepDone(env, a, q, r);
    var t1 := RacesStep(env, a, q, f.races);
    hide RacesStored, RefreshStored, ChallengesStored, Done, CatalogOk, DayOf, RacesSave, RefreshSaves, ChallengesSave, AsksRefresh;
    RefreshKeepsDone(env, t1.account, q, r);
    var t2 := RefreshStep(t1.account, q, f.refresh);
    ChallengesKeepDone(env, t2.account, q, r);
  }

  /** A successful attempt leaves nothing in its report. */
  lemma SuccessIsDone(env: Env, a: Account, r: Delivery, f: Faults)
    requires CatalogOk(env) && Try(env, a, r, f).ok
    ensures Done(env, Try(env, a, r, f).account, r)
  {
    var b := RacesStored(env.rates, a, r.events, r.racesAt);
    var c := RefreshStored(b, r.events, r.refreshAt);
    RacesLeaveNothing(env.rates, a, r.events, r.racesAt);
    RefreshLeavesNothing(b, r.events, r.refreshAt);
    ChallengesLeaveNothing(env.schedule, c, r.events, r.challengesAt);
    StepParts(env, b, r);
    StepParts(env, c, r);
    hide RacesStored, RefreshStored, ChallengesStored, RacesDone, RefreshDone, RulesDone, CatalogOk, RacesSave, RefreshSaves, ChallengesSave;
  }

  // ---------- repeating a counted report ----------

  lemma {:induction false} PayNothing(rates: Rates, book: RaceBook, events: seq<Event>, now: nat)
    requires HasRates(rates) && RatesOk(rates) && RacesDone(rates, book, events, now)
    ensures var run := PayRaces(rates, book, events, now); Total(run.paid) == 0 && book.receipts <= run.book.receipts
  {
    if events != [] {
      var before, e := events[..|events|-1], events[|events|-1];
      assert e in events;
      PayNothing(rates, book, before, now);
      var run := PayRaces(rates, book, before, now);
      if Qualifies(rates, e, now) && e !in run.book.receipts {
        PayoutNothing(rates, map[], run.book.online, e);
        var p := Payment(e, Payout(rates, run.book.online, e));
        assert (run.paid + [p])[..|run.paid|] == run.paid;
      }
      hide Payout, RatesOk, Qualifies;
    }
  }

  lemma SpendNothing(a: Account, events: seq<Event>, now: nat)
    requires RefreshDone(a.pitStop, events, now)
    ensures RefreshStored(a, events, now) == a
  {
    SpentIsSpent(Today(a.pitStop, now), events, now);
    SpendFrame(Today(a.pitStop, now), events, now);
    hide PitStopRefresh.Counts, Spend;
  }

  lemma TrackNothing(s: Schedule, r: Rule, challenges: map<Key, Completion>, events: seq<Event>, now: nat)
    requires s.cycleSeconds > 0 && RuleDone(s, r, challenges, events, now)
    ensures RuleSettled(s, r, challenges, events, now)
  {
    var cur := Current(s, r, Unix(now));
    if cur.Some? {
      var record := RecordAt(challenges, KeyOf(r, cur.value));
      if record.completed == 0 { TrackAgain(r, cur.value, now, record, events); }
      hide Current, Track, Counted;
    }
  }

  lemma AwardNothing(s: Schedule, challenges: map<Key, Completion>, events: seq<Event>, now: nat)
    requires s.cycleSeconds > 0 && RulesDone(s, s.rules, challenges, events, now)
    ensures AwardAll(s, s.rules, challenges, events, now) == Progress(challenges, 0, false, [])
  {
    hide RuleDone, RuleSettled;
    forall r | r in s.rules ensures RuleSettled(s, r, challenges, events, now) { TrackNothing(s, r, challenges, events, now); }
    SettledStays(s, s.rules, challenges, events, now);
  }

  /** The books stay exactly as they are, however the repetition fails or succeeds. */
  lemma RepeatChangesNothing(env: Env, b: Books, r: Delivery, f: Faults)
    requires CatalogOk(env) && Done(env, b.account, r)
    ensures BookReport(env, b, r, f) == b
  {
    PayNothing(env.rates, b.account.races, r.events, r.racesAt);
    SpendNothing(b.account, r.events, r.refreshAt);
    AwardNothing(env.schedule, b.account.challenges, r.events, r.challengesAt);
    hide PayRaces, RefreshStored, AwardAll, Done, CatalogOk, AsksRefresh, RefreshSaves;
    assert BookRaces(env, b, r, f.races) == b;
    assert b.log.awards + [] == b.log.awards;
    assert BookChallenges(env, b, r, f.challenges) == b;
  }

  lemma DoneAgrees(env: Env, a: Account, q: Delivery, r: Delivery)
    requires Usable(env) && Agrees(env, q, r) && Done(env, a, r)
    ensures Done(env, a, q)
  {
    hide Qualifies, Worthless, RuleDone, RuleAgrees, PitStopRefresh.Counts, DayOf;
    forall rule | rule in env.schedule.rules ensures RuleDone(env.schedule, rule, a.challenges, q.events, q.challengesAt) {
      RuleDoneAgrees(env.schedule, rule, a.challenges, r.events, q.challengesAt, r.challengesAt);
    }
  }

  lemma RuleDoneAgrees(s: Schedule, r: Rule, challenges: map<Key, Completion>, events: seq<Event>, t: nat, u: nat)
    requires s.cycleSeconds > 0 && RuleAgrees(s, r, events, t, u) && RuleDone(s, r, challenges, events, u)
    ensures RuleDone(s, r, challenges, events, t)
  {
    var cur := Current(s, r, Unix(u));
    if cur.Some? { TrackSame(r, cur.value, UNSTARTED, events, t, u); }
    hide Current, Counted, Credited, CountsAgree;
  }

  lemma RunSnoc(env: Env, a: Account, ops: seq<Op>, op: Op)
    requires Usable(env)
    ensures RunBooks(env, a, ops + [op]) == Apply(env, RunBooks(env, a, ops), op)
  {
    assert (ops + [op])[..|ops|] == ops;
    hide Apply;
  }

  lemma {:induction false} RunKeepsDone(env: Env, a: Account, start: seq<Op>, ops: seq<Op>, r: Delivery)
    requires CatalogOk(env) && Done(env, RunBooks(env, a, start).account, r)
    requires forall op :: op in ops ==> SameDay(op, DayOf(r.refreshAt))
    ensures Done(env, RunBooks(env, a, start + ops).account, r)
    decreases |ops|
  {
    hide *;
    assert Usable(env) by { UsableOf(env); }
    if ops == [] { assert start + ops == start; } else {
      var front, last := ops[..|ops|-1], ops[|ops|-1];
      assert last in ops;
      RunKeepsDone(env, a, start, front, r);
      OpKeepsDone(env, RunBooks(env, a, start + front), last, r);
      RunSnoc(env, a, start + front, last);
      assert start + ops == start + front + [last];
    }
  }

  lemma UsableOf(env: Env)
    requires CatalogOk(env)
    ensures Usable(env)
  {
  }

  lemma {:induction false} SameRest(env: Env, a: Account, one: seq<Op>, other: seq<Op>, rest: seq<Op>)
    requires Usable(env) && RunBooks(env, a, one) == RunBooks(env, a, other)
    ensures RunBooks(env, a, one + rest) == RunBooks(env, a, other + rest)
    decreases |rest|
  {
    hide *;
    if rest == [] { assert one + rest == one && other + rest == other; } else {
      var front, last := rest[..|rest|-1], rest[|rest|-1];
      SameRest(env, a, one, other, front);
      RunSnoc(env, a, one + front, last);
      RunSnoc(env, a, other + front, last);
      assert one + rest == one + front + [last] && other + rest == other + front + [last];
    }
  }

  /** A report that has been taken once can be dropped wherever it comes again: at any agreeing
      time, after any purchases and other reports, with or without failures, the repetition moves
      no coin, spends no refresh, credits no challenge and changes nothing that comes after it. */
  lemma RepeatsDropped(env: Env, a: Account, before: seq<Op>, r: Delivery, f: Faults, between: seq<Op>, q: Delivery, g: Faults, rest: seq<Op>)
    requires CatalogOk(env) && Try(env, RunBooks(env, a, before).account, r, f).ok && Agrees(env, q, r)
    requires forall op :: op in between ==> SameDay(op, DayOf(r.refreshAt))
    ensures var taken := before + [Reported(r, f)] + between;
      RunBooks(env, a, taken + [Reported(q, g)] + rest) == RunBooks(env, a, taken + rest)
  {
    hide *;
    UsableOf(env);
    var start := before + [Reported(r, f)];
    var taken := start + between;
    FirstTaken(env, a, before, r, f);
    RunKeepsDone(env, a, start, between, r);
    DoneAgrees(env, RunBooks(env, a, taken).account, q, r);
    RepeatBooks(env, a, taken, q, g);
    SameRest(env, a, taken + [Reported(q, g)], taken, rest);
  }

  lemma FirstTaken(env: Env, a: Account, before: seq<Op>, r: Delivery, f: Faults)
    requires CatalogOk(env) && Try(env, RunBooks(env, a, before).account, r, f).ok
    ensures Done(env, RunBooks(env, a, before + [Reported(r, f)]).account, r)
  {
    SuccessIsDone(env, RunBooks(env, a, before).account, r, f);
    RunSnoc(env, a, before, Reported(r, f));
    BooksAreStored(env, RunBooks(env, a, before), r, f);
    hide Done, Try, BookReport, CatalogOk, RunBooks;
  }

  lemma RepeatBooks(env: Env, a: Account, ops: seq<Op>, q: Delivery, g: Faults)
    requires CatalogOk(env) && Done(env, RunBooks(env, a, ops).account, q)
    ensures RunBooks(env, a, ops + [Reported(q, g)]) == RunBooks(env, a, ops)
  {
    RunSnoc(env, a, ops, Reported(q, g));
    RepeatChangesNothing(env, RunBooks(env, a, ops), q, g);
    hide Done, BookReport, CatalogOk, RunBooks;
  }
}
