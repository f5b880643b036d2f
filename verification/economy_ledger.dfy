/** A report's three separately saved steps, and the ledger over any mix of
    reports and purchases (ctr_achievements.go:24-57). */
module Ledger {
  import opened Common
  import opened EconomyTypes
  import opened RaceAwards
  import opened PitStopRefresh
  import opened Challenges
  import opened Purchases

  /** What the server is configured with. */
  datatype Env = Env(rates: Rates, schedule: Schedule, catalog: Catalog)

  predicate Usable(env: Env) { HasRates(env.rates) && env.schedule.cycleSeconds > 0 }

  /** Facts of the shipped catalogue. */
  ghost predicate CatalogOk(env: Env) {
    && Usable(env) && StartsLate(env.schedule) && NamesOnce(env.schedule.rules) && RatesOk(env.rates)
    && forall r :: r in env.schedule.rules ==> r.reward >= 0
  }

  // ---------- one report, with failures ----------

  /** A report and the moments its three steps read the clock. */
  datatype Delivery = Delivery(events: seq<Event>, racesAt: nat, refreshAt: nat, challengesAt: nat)

  /** A step fails when it cannot load the account, or has something to save and cannot. */
  datatype Fault = NoFault | LoadFails | SaveFails
  datatype Faults = Faults(races: Fault, refresh: Fault, challenges: Fault)

  datatype Attempt = Attempt(account: Account, ok: bool)

  predicate RacesSave(env: Env, a: Account, r: Delivery)
    requires Usable(env)
  {
    Total(PayRaces(env.rates, a.races, r.events, r.racesAt).paid) != 0
  }

  predicate AsksRefresh(events: seq<Event>) { exists e :: e in events && IsRequest(e) }

  predicate RefreshSaves(a: Account, r: Delivery) { Spend(Today(a.pitStop, r.refreshAt), r.events, r.refreshAt).valid }

  predicate ChallengesSave(env: Env, a: Account, r: Delivery)
    requires Usable(env)
  {
    AwardAll(env.schedule, env.schedule.rules, a.challenges, r.events, r.challengesAt).changed
  }

  predicate Fails(f: Fault, saves: bool) { f.LoadFails? || (f.SaveFails? && saves) }

  function RacesStep(env: Env, a: Account, r: Delivery, f: Fault): Attempt
    requires Usable(env)
  {
    if Fails(f, RacesSave(env, a, r)) then Attempt(a, false) else Attempt(RacesStored(env.rates, a, r.events, r.racesAt), true)
  }

  /** Without a refresh request the account is not even loaded. */
  function RefreshStep(a: Account, r: Delivery, f: Fault): Attempt {
    if AsksRefresh(r.events) && Fails(f, RefreshSaves(a, r)) then Attempt(a, false)
    else Attempt(RefreshStored(a, r.events, r.refreshAt), true)
  }

  function ChallengesStep(env: Env, a: Account, r: Delivery, f: Fault): Attempt
    requires Usable(env)
  {
    if Fails(f, ChallengesSave(env, a, r)) then Attempt(a, false)
    else Attempt(ChallengesStored(env.schedule, a, r.events, r.challengesAt), true)
  }

  /** Races, then the refresh, then challenges; the first failure ends the attempt. */
  function Try(env: Env, a: Account, r: Delivery, f: Faults): Attempt
    requires Usable(env)
  {
    var t1 := RacesStep(env, a, r, f.races);
    if !t1.ok then t1 else
      var t2 := RefreshStep(t1.account, r, f.refresh);
      if !t2.ok then t2 else ChallengesStep(env, t2.account, r, f.challenges)
  }

  /** The three steps stand each on its own: what a step saved stays when a later one fails, and what was
      not saved by then is as it was. */
  lemma FailureKeepsEarlier(env: Env, a: Account, r: Delivery, f: Faults)
    requires Usable(env)
    ensures var t := Try(env, a, r, f);
      var paid := Total(PayRaces(env.rates, a.races, r.events, r.racesAt).paid);
      var racesDone := !f.races.LoadFails? && (f.races.SaveFails? ==> paid == 0);
      && (!racesDone ==> t == Attempt(a, false))
      && (racesDone && f.refresh.LoadFails? && (exists e :: e in r.events && IsRequest(e)) ==>
        !t.ok && t.account == RacesStored(env.rates, a, r.events, r.racesAt))
      && (racesDone && f.challenges.NoFault? && (forall e :: e in r.events ==> !IsRequest(e)) ==> t.ok)
      && (racesDone && f.refresh.NoFault? && f.challenges.LoadFails? ==>
        !t.ok && t.account == RacesStored(env.rates, a, r.events, r.racesAt)
          .(pitStop := RefreshStored(a, r.events, r.refreshAt).pitStop))
      && (t.ok ==> t.account == RacesStored(env.rates, a, r.events, r.racesAt).(
        pitStop := RefreshStored(a, r.events, r.refreshAt).pitStop,
        challenges := ChallengesStored(env.schedule, a, r.events, r.challengesAt).challenges,
        coins := a.coins + paid + (ChallengesStored(env.schedule, a, r.events, r.challengesAt).coins - a.coins)))
  {
    hide PayRaces, Spend, AwardAll, IsRequest;
  }

  // ---------- the ledger ----------

  datatype Op = Reported(report: Delivery, faults: Faults) | Purchase(skus: seq<nat>, fault: Fault)

  /** Everything that ever moved coins. */
  datatype Log = Log(races: seq<Payment>, awards: seq<Award>, debits: seq<int>)

  datatype Books = Books(account: Account, log: Log)

  function AwardTotal(awards: seq<Award>): int {
    if awards == [] then 0 else AwardTotal(awards[..|awards|-1]) + awards[|awards|-1].amount
  }

  function DebitTotal(debits: seq<int>): int {
    if debits == [] then 0 else DebitTotal(debits[..|debits|-1]) + debits[|debits|-1]
  }

  function BookRaces(env: Env, b: Books, r: Delivery, f: Fault): Books
    requires Usable(env)
  {
    var t := RacesStep(env, b.account, r, f);
    if !t.ok || !RacesSave(env, b.account, r) then Books(t.account, b.log)
    else Books(t.account, b.log.(races := b.log.races + PayRaces(env.rates, b.account.races, r.events, r.racesAt).paid))
  }

  function BookChallenges(env: Env, b: Books, r: Delivery, f: Fault): Books
    requires Usable(env)
  {
    var t := ChallengesStep(env, b.account, r, f);
    if !t.ok then b
    else Books(t.account, b.log.(awards := b.log.awards +
      AwardAll(env.schedule, env.schedule.rules, b.account.challenges, r.events, r.challengesAt).awards))
  }

  function BookReport(env: Env, b: Books, r: Delivery, f: Faults): Books
    requires Usable(env)
  {
    var b1 := BookRaces(env, b, r, f.races);
    if !RacesStep(env, b.account, r, f.races).ok then b1 else
      var t2 := RefreshStep(b1.account, r, f.refresh);
      var b2 := b1.(account := t2.account);
      if !t2.ok then b2 else BookChallenges(env, b2, r, f.challenges)
  }

  function BookPurchase(env: Env, b: Books, skus: seq<nat>, f: Fault): Books {
    var cart := Bought(env.catalog, b.account, skus);
    if !f.NoFault? || cart.None? then b
    else Books(PurchaseStored(env.catalog, b.account, skus), b.log.(debits := b.log.debits + [cart.value.total]))
  }

  function Apply(env: Env, b: Books, op: Op): Books
    requires Usable(env)
  {
    match op
    case Reported(r, f) => BookReport(env, b, r, f)
    case Purchase(skus, f) => BookPurchase(env, b, skus, f)
  }

  function RunBooks(env: Env, a: Account, ops: seq<Op>): Books
    requires Usable(env)
  {
    if ops == [] then Books(a, Log([], [], []))
    else Apply(env, RunBooks(env, a, ops[..|ops|-1]), ops[|ops|-1])
  }

  /** The bookkeeping is the real thing: its account is the one the attempts leave stored. */
  lemma BooksAreStored(env: Env, b: Books, r: Delivery, f: Faults)
    requires Usable(env)
    ensures BookReport(env, b, r, f).account == Try(env, b.account, r, f).account
  {
    hide RacesStored, RefreshStored, ChallengesStored;
  }

  // ---------- what the ledger adds up to ----------

  predicate Finished(a: Account, key: Key) { RecordAt(a.challenges, key).completed != 0 }

  ghost predicate RaceAudit(start: Account, b: Books) {
    && (forall i, j :: 0 <= i < j < |b.log.races| ==> b.log.races[i].event != b.log.races[j].event)
    && (forall p :: p in b.log.races ==> p.event !in start.races.receipts && p.amount >= 0)
    && b.account.races.receipts == start.races.receipts + set p | p in b.log.races :: p.event
  }

  ghost predicate AwardAudit(start: Account, b: Books) {
    && (forall i, j :: 0 <= i < j < |b.log.awards| ==> b.log.awards[i].key != b.log.awards[j].key)
    && (forall w :: w in b.log.awards ==> !Finished(start, w.key) && w.amount >= 0)
    && (forall key :: Finished(b.account, key) <==> Finished(start, key) || exists w :: w in b.log.awards && w.key == key)
  }

  ghost predicate CoinAudit(start: Account, b: Books) {
    && b.account.coins == start.coins + Total(b.log.races) + AwardTotal(b.log.awards) - DebitTotal(b.log.debits)
    && (forall d :: d in b.log.debits ==> d >= 0)
    && (start.coins >= 0 ==> b.account.coins >= 0)
  }

  ghost predicate Audit(start: Account, b: Books) { RaceAudit(start, b) && AwardAudit(start, b) && CoinAudit(start, b) }

  lemma {:induction false} TotalConcat(a: seq<Payment>, b: seq<Payment>)
    ensures Total(a + b) == Total(a) + Total(b)
  {
    if b == [] { assert a + b == a; } else {
      TotalConcat(a, b[..|b|-1]);
      assert (a + b)[..|a + b|-1] == a + b[..|b|-1];
    }
  }

  lemma {:induction false} AwardTotalConcat(a: seq<Award>, b: seq<Award>)
    ensures AwardTotal(a + b) == AwardTotal(a) + AwardTotal(b)
  {
    if b == [] { assert a + b == a; } else {
      AwardTotalConcat(a, b[..|b|-1]);
      assert (a + b)[..|a + b|-1] == a + b[..|b|-1];
    }
  }

  lemma CoinsRaces(start: Account, b: Books, run: RaceRun)
    requires CoinAudit(start, b) && forall p :: p in run.paid ==> p.amount >= 0
    requires Total(run.paid) >= 0
    ensures CoinAudit(start, Books(b.account.(races := run.book, coins := b.account.coins + Total(run.paid)), b.log.(races := b.log.races + run.paid)))
  {
    TotalConcat(b.log.races, run.paid);
  }

  /** The books once the race payments `run` are entered. */
  function RacesEntered(b: Books, run: RaceRun): Books {
    Books(b.account.(races := run.book, coins := b.account.coins + Total(run.paid)), b.log.(races := b.log.races + run.paid))
  }

  lemma RacesEnter(env: Env, b: Books, r: Delivery, f: Fault)
    requires Usable(env)
    ensures var b' := BookRaces(env, b, r, f);
      b' == b || b' == RacesEntered(b, PayRaces(env.rates, b.account.races, r.events, r.racesAt))
  {
    hide PayRaces, Total;
  }

  lemma RacesEnteredAudited(start: Account, b: Books, run: RaceRun)
    requires Audit(start, b) && PaidOnce(b.account.races, run)
    requires (forall p :: p in run.paid ==> p.amount >= 0) && Total(run.paid) >= 0
    ensures Audit(start, RacesEntered(b, run))
  {
    hide Total, CoinAudit, RaceAudit, AwardAudit, PaidOnce;
    RaceLogGrows(start, b, run);
    CoinsRaces(start, b, run);
    AwardAuditSame(start, b, RacesEntered(b, run));
    RaceAuditSame(start, Books(b.account.(races := run.book), b.log.(races := b.log.races + run.paid)), RacesEntered(b, run));
  }

  lemma RacesAudited(env: Env, start: Account, b: Books, r: Delivery, f: Fault)
    requires CatalogOk(env) && Audit(start, b)
    ensures Audit(start, BookRaces(env, b, r, f))
  {
    RacesPaidOnce(env.rates, b.account.races, r.events, r.racesAt);
    PaymentsNonNegative(env.rates, b.account.races, r.events, r.racesAt);
    hide Audit, PayRaces, BookRaces, RacesEntered, PaidOnce, Total, Qualifies;
    RacesEnter(env, b, r, f);
    RacesEnteredAudited(start, b, PayRaces(env.rates, b.account.races, r.events, r.racesAt));
  }

  lemma RaceAuditSame(start: Account, b: Books, b': Books)
    requires RaceAudit(start, b) && b'.account.races == b.account.races && b'.log.races == b.log.races
    ensures RaceAudit(start, b')
  {
  }

  lemma RaceLogGrows(start: Account, b: Books, run: RaceRun)
    requires RaceAudit(start, b) && PaidOnce(b.account.races, run) && forall p :: p in run.paid ==> p.amount >= 0
    ensures RaceAudit(start, Books(b.account.(races := run.book), b.log.(races := b.log.races + run.paid)))
  {
    var q := b.log.races + run.paid;
    assert forall p :: p in q <==> p in b.log.races || p in run.paid;
    forall i, j | 0 <= i < j < |q| ensures q[i].event != q[j].event {
      if i < |b.log.races| <= j {
        assert q[i] in b.log.races && q[j] in run.paid;
        assert q[i].event in b.account.races.receipts;
      }
    }
  }

  lemma AwardAuditSame(start: Account, b: Books, b': Books)
    requires AwardAudit(start, b) && b'.account.challenges == b.account.challenges && b'.log.awards == b.log.awards
    ensures AwardAudit(start, b')
  {
    assert forall key :: Finished(b'.account, key) == Finished(b.account, key);
  }

  ghost predicate AwardsFresh(before: map<Key, Completion>, p: Progress) {
    && (forall i, j :: 0 <= i < j < |p.awards| ==> p.awards[i].key != p.awards[j].key)
    && (forall w :: w in p.awards ==> RecordAt(before, w.key).completed == 0 && w.amount >= 0)
  }

  ghost predicate AwardsComplete(before: map<Key, Completion>, p: Progress) {
    forall key :: RecordAt(p.challenges, key).completed != 0 <==>
      (RecordAt(before, key).completed != 0 || exists w :: w in p.awards && w.key == key)
  }

  /** What one challenge step awards: each award finishes a record that was unfinished, no
      record is awarded twice, and records finish in no other way. */
  ghost predicate AwardsExact(before: map<Key, Completion>, p: Progress) {
    p.credit == AwardTotal(p.awards) && AwardsFresh(before, p) && AwardsComplete(before, p)
  }

  /** One rule's step, seen from outside. */
  lemma AwardOneShape(s: Schedule, r: Rule, p: Progress, events: seq<Event>, now: nat) returns (w: Award)
    requires s.cycleSeconds > 0 && StartsLate(s) && r in s.rules
    ensures var q := AwardOne(s, r, p, events, now);
      && w.amount == r.reward && (forall k :: k != w.key ==> RecordAt(q.challenges, k) == RecordAt(p.challenges, k))
      && var finished := RecordAt(p.challenges, w.key).completed == 0 && RecordAt(q.challenges, w.key).completed != 0;
      && (finished ==> q.awards == p.awards + [w] && q.credit == p.credit + w.amount)
      && (!finished ==> q.awards == p.awards && q.credit == p.credit)
      && (!finished ==> (RecordAt(q.challenges, w.key).completed != 0 <==> RecordAt(p.challenges, w.key).completed != 0))
  {
    var cur := Current(s, r, Unix(now));
    w := Award(Key(r.name, 0), r.reward);
    if cur.Some? {
      w := Award(KeyOf(r, cur.value), r.reward);
      var record := RecordAt(p.challenges, w.key);
      StartPositive(s, r, Unix(now));
      TrackSeen(r, cur.value, now, record, events);
      hide Track, Current, StartsLate, Counted;
      var t := Track(r, cur.value, now, record, events);
      assert record.completed == 0 ==> (t.done <==> t.record.completed != 0);
      assert p.awards + [] == p.awards;
    }
  }

  lemma AwardOneExact(s: Schedule, r: Rule, before: map<Key, Completion>, p: Progress, events: seq<Event>, now: nat)
    requires s.cycleSeconds > 0 && StartsLate(s) && r in s.rules && r.reward >= 0 && AwardsExact(before, p)
    ensures AwardsExact(before, AwardOne(s, r, p, events, now))
  {
    var q := AwardOne(s, r, p, events, now);
    var w := AwardOneShape(s, r, p, events, now);
    hide AwardOne, RecordAt, AwardTotal, StartsLate;
    if RecordAt(p.challenges, w.key).completed == 0 && RecordAt(q.challenges, w.key).completed != 0 {
      AwardAppend(before, p, q, w);
    } else {
      assert AwardsComplete(before, q) by {
        forall key ensures RecordAt(q.challenges, key).completed != 0 <==> RecordAt(p.challenges, key).completed != 0 {}
      }
    }
  }

  lemma AppendFresh(before: map<Key, Completion>, p: Progress, q: Progress, w: Award)
    requires AwardsFresh(before, p) && q.awards == p.awards + [w] && w.amount >= 0
    requires RecordAt(before, w.key).completed == 0 && forall x :: x in p.awards ==> x.key != w.key
    ensures AwardsFresh(before, q)
  {
    hide RecordAt;
    assert forall x :: x in q.awards <==> x in p.awards || x == w;
    assert forall i :: 0 <= i < |p.awards| ==> p.awards[i] in p.awards;
  }

  lemma AppendComplete(before: map<Key, Completion>, p: Progress, q: Progress, w: Award)
    requires AwardsComplete(before, p) && q.awards == p.awards + [w] && RecordAt(q.challenges, w.key).completed != 0
    requires forall k :: k != w.key ==> RecordAt(q.challenges, k) == RecordAt(p.challenges, k)
    ensures AwardsComplete(before, q)
  {
    hide RecordAt;
    forall key ensures RecordAt(q.challenges, key).completed != 0 <==>
      (RecordAt(before, key).completed != 0 || exists x :: x in q.awards && x.key == key)
    {
      if key == w.key { assert w in q.awards; }
      else if exists x :: x in p.awards && x.key == key { var x :| x in p.awards && x.key == key; assert x in q.awards; }
    }
  }

  lemma AwardAppend(before: map<Key, Completion>, p: Progress, q: Progress, w: Award)
    requires AwardsExact(before, p) && q.awards == p.awards + [w] && q.credit == p.credit + w.amount && w.amount >= 0
    requires RecordAt(p.challenges, w.key).completed == 0 && RecordAt(q.challenges, w.key).completed != 0
    requires forall k :: k != w.key ==> RecordAt(q.challenges, k) == RecordAt(p.challenges, k)
    ensures AwardsExact(before, q)
  {
    hide RecordAt, AwardTotal, AwardsFresh, AwardsComplete;
    AwardTotalSnoc(p.awards, w);
    NewKey(before, p, w);
    AppendComplete(before, p, q, w);
    AppendFresh(before, p, q, w);
  }

  lemma NewKey(before: map<Key, Completion>, p: Progress, w: Award)
    requires AwardsComplete(before, p) && RecordAt(p.challenges, w.key).completed == 0
    ensures RecordAt(before, w.key).completed == 0 && forall x :: x in p.awards ==> x.key != w.key
  {
    hide RecordAt;
  }

  lemma AwardTotalSnoc(awards: seq<Award>, w: Award)
    ensures AwardTotal(awards + [w]) == AwardTotal(awards) + w.amount
  {
    assert (awards + [w])[..|awards|] == awards;
  }

  lemma {:induction false} AwardAllExact(s: Schedule, rules: seq<Rule>, before: map<Key, Completion>, events: seq<Event>, now: nat)
    requires s.cycleSeconds > 0 && StartsLate(s) && forall r :: r in rules ==> r in s.rules && r.reward >= 0
    ensures AwardsExact(before, AwardAll(s, rules, before, events, now))
  {
    if rules != [] {
      AwardAllExact(s, rules[..|rules|-1], before, events, now);
      hide AwardsExact, StartsLate, AwardOne;
      AwardOneExact(s, rules[|rules|-1], before, AwardAll(s, rules[..|rules|-1], before, events, now), events, now);
    }
  }

  lemma AwardLogGrows(start: Account, b: Books, p: Progress)
    requires AwardAudit(start, b) && AwardsExact(b.account.challenges, p)
    ensures AwardAudit(start, Books(b.account.(challenges := p.challenges), b.log.(awards := b.log.awards + p.awards)))
  {
    var q := b.log.awards + p.awards;
    assert forall w :: w in q <==> w in b.log.awards || w in p.awards;
    forall i, j | 0 <= i < j < |q| ensures q[i].key != q[j].key {
      if i < |b.log.awards| <= j {
        assert q[i] in b.log.awards && q[j] in p.awards;
        assert Finished(b.account, q[i].key);
      }
    }
    forall w | w in p.awards ensures !Finished(start, w.key) { assert !Finished(b.account, w.key); }
    hide RecordAt;
    assert forall key :: Finished(b.account.(challenges := p.challenges), key) <==> RecordAt(p.challenges, key).completed != 0;
  }

  lemma {:induction false} AwardsNonNegative(awards: seq<Award>)
    requires forall w :: w in awards ==> w.amount >= 0
    ensures AwardTotal(awards) >= 0
  {
    if awards != [] { AwardsNonNegative(awards[..|awards|-1]); }
  }

  /** The books once the awards `p` are entered. */
  function Entered(b: Books, p: Progress): Books {
    Books(b.account.(challenges := p.challenges, coins := b.account.coins + p.credit), b.log.(awards := b.log.awards + p.awards))
  }

  lemma ChallengesEntered(env: Env, b: Books, r: Delivery, f: Fault)
    requires CatalogOk(env)
    ensures var b' := BookChallenges(env, b, r, f);
      b' == b || b' == Entered(b, AwardAll(env.schedule, env.schedule.rules, b.account.challenges, r.events, r.challengesAt))
  {
    UnchangedMeansSame(env.schedule, env.schedule.rules, b.account.challenges, r.events, r.challengesAt);
    hide AwardAll;
    assert b.log.awards + [] == b.log.awards;
  }

  lemma EnteredAudited(start: Account, b: Books, p: Progress)
    requires Audit(start, b) && AwardsExact(b.account.challenges, p)
    ensures Audit(start, Entered(b, p))
  {
    hide RaceAudit, AwardAudit, CoinAudit, AwardsExact, Entered;
    CoinsAwarded(start, b, p);
    AwardsAudited(start, b, p);
    RacesUntouched(start, b, p);
  }

  lemma RacesUntouched(start: Account, b: Books, p: Progress)
    requires RaceAudit(start, b)
    ensures RaceAudit(start, Entered(b, p))
  {
  }

  lemma AwardsAudited(start: Account, b: Books, p: Progress)
    requires AwardAudit(start, b) && AwardsExact(b.account.challenges, p)
    ensures AwardAudit(start, Entered(b, p))
  {
    AwardLogGrows(start, b, p);
    AwardAuditSame(start, Books(b.account.(challenges := p.challenges), b.log.(awards := b.log.awards + p.awards)), Entered(b, p));
    hide AwardAudit, AwardsExact;
  }

  lemma CoinsAwarded(start: Account, b: Books, p: Progress)
    requires CoinAudit(start, b) && AwardsExact(b.account.challenges, p)
    ensures CoinAudit(start, Entered(b, p))
  {
    CreditIsTotal(b.account.challenges, p);
    AwardTotalConcat(b.log.awards, p.awards);
    AwardsNonNegative(p.awards);
    hide AwardsExact, AwardTotal, DebitTotal, Total;
  }

  lemma ChallengesAudited(env: Env, start: Account, b: Books, r: Delivery, f: Fault)
    requires CatalogOk(env) && Audit(start, b)
    ensures Audit(start, BookChallenges(env, b, r, f))
  {
    var s := env.schedule;
    AwardAllExact(s, s.rules, b.account.challenges, r.events, r.challengesAt);
    hide Audit, AwardAll, BookChallenges, Entered;
    ChallengesEntered(env, b, r, f);
    EnteredAudited(start, b, AwardAll(s, s.rules, b.account.challenges, r.events, r.challengesAt));
  }

  lemma CreditIsTotal(before: map<Key, Completion>, p: Progress)
    requires AwardsExact(before, p)
    ensures p.credit == AwardTotal(p.awards)
  {
  }

  lemma RefreshAudited(start: Account, b: Books, r: Delivery, f: Fault)
    requires Audit(start, b)
    ensures Audit(start, b.(account := RefreshStep(b.account, r, f).account))
  {
    var b' := b.(account := RefreshStep(b.account, r, f).account);
    assert b'.account.challenges == b.account.challenges && b'.account.races == b.account.races && b'.account.coins == b.account.coins;
    AwardAuditSame(start, b, b');
  }

  /** What a purchase, empty or not, does to the coins. */
  lemma CartCoins(catalog: Catalog, a: Account, skus: seq<nat>)
    requires Bought(catalog, a, skus).Some?
    ensures var c := Bought(catalog, a, skus).value;
      c.total >= 0 && c.coins == a.coins - c.total && (a.coins >= 0 ==> c.coins >= 0)
  {
    if skus != [] { PurchaseExact(catalog, a, skus); }
  }

  lemma DebitAdded(debits: seq<int>, d: int)
    ensures DebitTotal(debits + [d]) == DebitTotal(debits) + d
  {
    assert (debits + [d])[..|debits|] == debits;
  }

  lemma PurchaseAudited(env: Env, start: Account, b: Books, skus: seq<nat>, f: Fault)
    requires Audit(start, b)
    ensures Audit(start, BookPurchase(env, b, skus, f))
  {
    hide Bought, AwardAudit, DebitTotal, Total, AwardTotal;
    var b' := BookPurchase(env, b, skus, f);
    AwardAuditSame(start, b, b');
    if f.NoFault? && Bought(env.catalog, b.account, skus).Some? {
      CartCoins(env.catalog, b.account, skus);
      DebitAdded(b.log.debits, Bought(env.catalog, b.account, skus).value.total);
    }
  }

  /** Over any interleaving of reports, with any failures, and purchases: the balance is the
      starting balance plus one payout for each distinct race event credited plus one reward
      for each rule and period newly completed minus the purchase debits; exactly the paid
      races have new receipts and exactly the rewarded challenges are newly complete; debits
      are never negative, and the balance never is if it did not start so. */
  lemma {:induction false} LedgerBalances(env: Env, start: Account, ops: seq<Op>)
    requires CatalogOk(env)
    ensures Audit(start, RunBooks(env, start, ops))
  {
    if ops == [] {
      assert start.races.receipts + {} == start.races.receipts;
    } else {
      var b := RunBooks(env, start, ops[..|ops|-1]);
      LedgerBalances(env, start, ops[..|ops|-1]);
      hide Audit, CatalogOk, BookRaces, BookChallenges, BookPurchase, RefreshStep, RacesStep;
      match ops[|ops|-1]
      case Reported(r, f) =>
        RacesAudited(env, start, b, r, f.races);
        var b1 := BookRaces(env, b, r, f.races);
        RefreshAudited(start, b1, r, f.refresh);
        ChallengesAudited(env, start, b1.(account := RefreshStep(b1.account, r, f.refresh).account), r, f.challenges);
      case Purchase(skus, f) =>
        PurchaseAudited(env, start, b, skus, f);
    }
  }

  // ---------- every coin has its price ----------

  /** The online seconds of each day once these races have been credited. */
  function OnlineAfter(online: map<int, nat>, paid: seq<Payment>): map<int, nat> {
    if paid == [] then online else AfterRace(OnlineAfter(online, paid[..|paid|-1]), paid[|paid|-1].event)
  }

  lemma {:induction false} OnlineConcat(online: map<int, nat>, a: seq<Payment>, b: seq<Payment>)
    ensures OnlineAfter(online, a + b) == OnlineAfter(OnlineAfter(online, a), b)
    decreases |b|
  {
    if b == [] { assert a + b == a; } else {
      OnlineConcat(online, a, b[..|b|-1]);
      assert (a + b)[..|a + b|-1] == a + b[..|b|-1];
    }
  }

  lemma {:induction false} OnlineAfterPlayed(online: map<int, nat>, paid: seq<Payment>, day: int)
    ensures Played(OnlineAfter(online, paid), day) == Played(online, day) + OnlineSeconds(paid, day)
    decreases |paid|
  {
    if paid != [] {
      OnlineAfterPlayed(online, paid[..|paid|-1], day);
      AfterRacePlayed(OnlineAfter(online, paid[..|paid|-1]), paid[|paid|-1].event, day);
      hide Played, AfterRace;
    }
  }

  /** The event was in a report whose race step found it in order at its time. */
  ghost predicate Reports(rates: Rates, ops: seq<Op>, e: Event) {
    exists k :: 0 <= k < |ops| && ops[k].Reported? && e in ops[k].report.events && RaceInOrder(rates, e, ops[k].report.racesAt)
  }

  /** The i-th payment is its race's fare, given the online seconds of its day: those the account
      started with and those of the payments before it. */
  ghost predicate PaidRight(rates: Rates, online: map<int, nat>, paid: seq<Payment>, i: nat)
    requires HasRates(rates) && i < |paid|
  {
    var e := paid[i].event;
    var day := e.timestamp / 86400;
    && e.Val("Track") in rates && e.Val("Rank") >= 1
    && paid[i].amount == Fare(rates, e, Played(online, day) + OnlineSeconds(paid[..i], day))
  }

  ghost predicate FairRaces(env: Env, start: Account, ops: seq<Op>, b: Books)
    requires Usable(env)
  {
    && b.account.races.online == OnlineAfter(start.races.online, b.log.races)
    && AllPaidRight(env.rates, ops, start.races.online, b.log.races)
  }

  ghost predicate AllPaidRight(rates: Rates, ops: seq<Op>, online: map<int, nat>, paid: seq<Payment>)
    requires HasRates(rates)
  {
    forall i :: 0 <= i < |paid| ==> PaidRight(rates, online, paid, i) && Reports(rates, ops, paid[i].event)
  }

  /** The award is the reward of a rule, for the period the rule was in when a report came. */
  ghost predicate FairAward(s: Schedule, ops: seq<Op>, w: Award)
    requires s.cycleSeconds > 0
  {
    exists k :: 0 <= k < |ops| && ops[k].Reported? && Rewards(s, w, ops[k].report.challengesAt)
  }

  ghost predicate Rewards(s: Schedule, w: Award, now: nat)
    requires s.cycleSeconds > 0
  {
    exists r :: r in s.rules && Current(s, r, Unix(now)).Some? && w == Award(KeyOf(r, Current(s, r, Unix(now)).value), r.reward)
  }

  ghost predicate FairAwards(env: Env, ops: seq<Op>, b: Books)
    requires Usable(env)
  {
    forall w :: w in b.log.awards ==> FairAward(env.schedule, ops, w)
  }

  /** The run's online table follows from its payments, and each payment is right and for an event
      of the report that qualified. */
  ghost predicate PaidFairly(rates: Rates, book: RaceBook, events: seq<Event>, now: nat, run: RaceRun)
    requires HasRates(rates)
  {
    && run.book.online == OnlineAfter(book.online, run.paid)
    && forall i :: 0 <= i < |run.paid| ==>
         PaidRight(rates, book.online, run.paid, i) && run.paid[i].event in events && Qualifies(rates, run.paid[i].event, now)
  }

  lemma OnePaidRight(rates: Rates, book: RaceBook, before: seq<Event>, now: nat, run: RaceRun, e: Event)
    requires HasRates(rates) && PaidFairly(rates, book, before, now, run)
    ensures PaidFairly(rates, book, before + [e], now, PayOne(rates, run, e, now))
  {
    if Qualifies(rates, e, now) && e !in run.book.receipts {
      var p := Payment(e, Payout(rates, run.book.online, e));
      PaidNextRight(rates, book.online, run.paid, p);
      assert PayOne(rates, run, e, now).paid == run.paid + [p];
      hide PaidRight, Payout, OnlineAfter;
    }
  }

  /** What one race step pays, payment by payment. */
  lemma {:induction false} RacesPaidRight(rates: Rates, book: RaceBook, events: seq<Event>, now: nat)
    requires HasRates(rates)
    ensures PaidFairly(rates, book, events, now, PayRaces(rates, book, events, now))
    decreases |events|
  {
    if events == [] {
      assert OnlineAfter(book.online, []) == book.online;
    } else {
      var before, e := events[..|events|-1], events[|events|-1];
      RacesPaidRight(rates, book, before, now);
      assert events == before + [e];
      OnePaidRight(rates, book, before, now, PayRaces(rates, book, before, now), e);
      hide PaidFairly, PayOne;
    }
  }

  lemma PaidNextRight(rates: Rates, online: map<int, nat>, paid: seq<Payment>, p: Payment)
    requires HasRates(rates) && p.event.Val("Track") in rates && p.event.Val("Rank") >= 1
    requires p.amount == Payout(rates, OnlineAfter(online, paid), p.event)
    ensures OnlineAfter(online, paid + [p]) == AfterRace(OnlineAfter(online, paid), p.event)
    ensures PaidRight(rates, online, paid + [p], |paid|)
    ensures forall i :: 0 <= i < |paid| ==> PaidRight(rates, online, paid + [p], i) == PaidRight(rates, online, paid, i)
  {
    assert (paid + [p])[..|paid|] == paid;
    PayoutIsFare(rates, OnlineAfter(online, paid), p.event);
    OnlineAfterPlayed(online, paid, p.event.timestamp / 86400);
    hide Fare, Payout, OnlineSeconds, Played, AfterRace;
    forall i | 0 <= i < |paid| ensures PaidRight(rates, online, paid + [p], i) == PaidRight(rates, online, paid, i) {
      assert (paid + [p])[..i] == paid[..i];
    }
  }

  lemma FairRacesGrow(env: Env, start: Account, ops: seq<Op>, b: Books, r: Delivery, f: Fault)
    requires Usable(env) && FairRaces(env, start, ops, b) && ops != [] && ops[|ops|-1].Reported? && ops[|ops|-1].report == r
    ensures FairRaces(env, start, ops, BookRaces(env, b, r, f))
  {
    var run := PayRaces(env.rates, b.account.races, r.events, r.racesAt);
    RacesPaidRight(env.rates, b.account.races, r.events, r.racesAt);
    forall i | 0 <= i < |run.paid| ensures Reports(env.rates, ops, run.paid[i].event) {
      ReportedHere(env.rates, ops, run.paid[i].event);
    }
    assert AllPaidRight(env.rates, ops, b.account.races.online, run.paid);
    hide PayRaces, Total, AllPaidRight;
    OnlineConcat(start.races.online, b.log.races, run.paid);
    AllPaidRightConcat(env.rates, ops, start.races.online, b.log.races, run.paid);
  }

  lemma AllPaidRightConcat(rates: Rates, ops: seq<Op>, online: map<int, nat>, a: seq<Payment>, b: seq<Payment>)
    requires HasRates(rates) && AllPaidRight(rates, ops, online, a) && AllPaidRight(rates, ops, OnlineAfter(online, a), b)
    ensures AllPaidRight(rates, ops, online, a + b)
  {
    hide PaidRight, Reports;
    forall i | 0 <= i < |a + b| ensures PaidRight(rates, online, a + b, i) && Reports(rates, ops, (a + b)[i].event) {
      if i < |a| {
        PaidRightPrefix(rates, online, a, b, i);
      } else {
        PaidRightSuffix(rates, online, a, b, i - |a|);
        assert (a + b)[i] == b[i - |a|];
      }
    }
  }

  lemma ReportedHere(rates: Rates, ops: seq<Op>, e: Event)
    requires ops != [] && ops[|ops|-1].Reported?
    requires e in ops[|ops|-1].report.events && Qualifies(rates, e, ops[|ops|-1].report.racesAt)
    ensures Reports(rates, ops, e)
  {
    QualifiesIsInOrder(rates, e, ops[|ops|-1].report.racesAt);
  }

  lemma PaidRightPrefix(rates: Rates, online: map<int, nat>, a: seq<Payment>, b: seq<Payment>, i: nat)
    requires HasRates(rates) && i < |a| && PaidRight(rates, online, a, i)
    ensures PaidRight(rates, online, a + b, i)
  {
    assert (a + b)[..i] == a[..i];
    hide Fare, OnlineSeconds, Played;
  }

  lemma PaidRightSuffix(rates: Rates, online: map<int, nat>, a: seq<Payment>, b: seq<Payment>, i: nat)
    requires HasRates(rates) && i < |b| && PaidRight(rates, OnlineAfter(online, a), b, i)
    ensures PaidRight(rates, online, a + b, |a| + i)
  {
    assert (a + b)[..|a| + i] == a + b[..i];
    var day := b[i].event.timestamp / 86400;
    OnlineAfterPlayed(online, a, day);
    OnlineAfterPlayed(OnlineAfter(online, a), b[..i], day);
    OnlineAfterPlayed(online, a + b[..i], day);
    OnlineConcat(online, a, b[..i]);
    hide Fare, OnlineSeconds, Played, OnlineAfter;
  }

  lemma {:induction false} AwardsRewarded(s: Schedule, rules: seq<Rule>, before: map<Key, Completion>, events: seq<Event>, now: nat)
    requires s.cycleSeconds > 0 && forall r :: r in rules ==> r in s.rules
    ensures forall w :: w in AwardAll(s, rules, before, events, now).awards ==> Rewards(s, w, now)
  {
    if rules != [] {
      var r := rules[|rules|-1];
      AwardsRewarded(s, rules[..|rules|-1], before, events, now);
      hide Track;
      assert r in s.rules;
      if Current(s, r, Unix(now)).Some? {
        assert Rewards(s, Award(KeyOf(r, Current(s, r, Unix(now)).value), r.reward), now);
      }
      hide Current, Rewards;
    }
  }

  lemma FairAwardsGrow(env: Env, ops: seq<Op>, b: Books, r: Delivery, f: Fault)
    requires Usable(env) && FairAwards(env, ops, b) && ops != [] && ops[|ops|-1].Reported? && ops[|ops|-1].report == r
    ensures FairAwards(env, ops, BookChallenges(env, b, r, f))
  {
    AwardsRewarded(env.schedule, env.schedule.rules, b.account.challenges, r.events, r.challengesAt);
    hide AwardAll, Rewards;
    assert forall w :: Rewards(env.schedule, w, r.challengesAt) ==> FairAward(env.schedule, ops, w);
    hide FairAward;
  }

  /** A longer run justifies what a shorter one did. */
  lemma FairLater(env: Env, start: Account, ops: seq<Op>, b: Books)
    requires Usable(env) && ops != [] && FairRaces(env, start, ops[..|ops|-1], b) && FairAwards(env, ops[..|ops|-1], b)
    ensures FairRaces(env, start, ops, b) && FairAwards(env, ops, b)
  {
    var before := ops[..|ops|-1];
    hide PaidRight, RaceInOrder, Rewards;
    forall e | Reports(env.rates, before, e) ensures Reports(env.rates, ops, e) {
      var k :| 0 <= k < |before| && before[k].Reported? && e in before[k].report.events && RaceInOrder(env.rates, e, before[k].report.racesAt);
      assert ops[k] == before[k];
    }
    forall w | FairAward(env.schedule, before, w) ensures FairAward(env.schedule, ops, w) {
      var k :| 0 <= k < |before| && before[k].Reported? && Rewards(env.schedule, w, before[k].report.challengesAt);
      assert ops[k] == before[k];
    }
  }

  /** Over the same runs: every race payment is for an event that was in order when it was
      reported, and is its tabled payout with the daily bonus the account's own earlier payments
      leave it; every award is the reward of a rule for the period it was in when a report came. */
  lemma {:induction false} LedgerPriced(env: Env, start: Account, ops: seq<Op>)
    requires Usable(env)
    ensures FairRaces(env, start, ops, RunBooks(env, start, ops)) && FairAwards(env, ops, RunBooks(env, start, ops))
  {
    if ops == [] {
      assert OnlineAfter(start.races.online, []) == start.races.online;
    } else {
      var b := RunBooks(env, start, ops[..|ops|-1]);
      LedgerPriced(env, start, ops[..|ops|-1]);
      FairLater(env, start, ops, b);
      match ops[|ops|-1]
      case Reported(r, f) => FairReport(env, start, ops, b, r, f);
      case Purchase(skus, f) => hide Fill, FairAward, PaidRight, Reports, OnlineAfter;
    }
  }

  lemma FairReport(env: Env, start: Account, ops: seq<Op>, b: Books, r: Delivery, f: Faults)
    requires Usable(env) && FairRaces(env, start, ops, b) && FairAwards(env, ops, b)
    requires ops != [] && ops[|ops|-1].Reported? && ops[|ops|-1].report == r
    ensures FairRaces(env, start, ops, BookReport(env, b, r, f)) && FairAwards(env, ops, BookReport(env, b, r, f))
  {
    FairRacesGrow(env, start, ops, b, r, f.races);
    var b1 := BookRaces(env, b, r, f.races);
    var b2 := b1.(account := RefreshStep(b1.account, r, f.refresh).account);
    FairAwardsGrow(env, ops, b2, r, f.challenges);
    hide PayRaces, AwardAll, FairAward, PaidRight, Reports, OnlineAfter, RefreshStored, RacesStored, Total, Spend;
  }
}
