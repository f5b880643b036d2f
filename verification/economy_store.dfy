/** The economy store as the server runs it: one stored account per player, each step loading
    a copy, changing it in loops and saving it whole or not at all. */
module EconomyStore {
  import opened Common
  import opened EconomyTypes
  import opened RaceAwards
  import PitStopRefresh
  import Challenges
  import opened Purchases
  import opened Ledger
  import WireEvents

  /** A player's files from before there was one account file. */
  datatype Legacy = Legacy(coins: Option<int>, skus: seq<nat>)

  class Store {
    const env: Env
    const startBalance: int
    const legacy: map<nat, Legacy>
    var accounts: map<nat, Account>

    constructor (env: Env, startBalance: int, legacy: map<nat, Legacy>)
      ensures this.env == env && this.startBalance == startBalance && this.legacy == legacy && accounts == map[]
    {
      this.env, this.startBalance, this.legacy, accounts := env, startBalance, legacy, map[];
    }

    function Old(pid: nat): Legacy { if pid in legacy then legacy[pid] else Legacy(None, []) }

    /** The account made from a player's old files; one that lists an unknown SKU stops it. */
    function NewAccount(pid: nat): Option<Account> {
      var l := Old(pid);
      if exists id :: id in l.skus && id !in env.catalog then None
      else Some(Account(if l.coins.Some? then l.coins.value else startBalance, AllItems(env.catalog, l.skus),
        RaceBook({}, map[]), None, map[]))
    }

    /** A player seen for the first time has the coins of the old wallet, or the starting balance without
        one, the items of the old SKUs, and no history; with an unknown old SKU there is no account. */
    lemma FirstAccount(pid: nat)
      requires pid !in accounts
      ensures var skus := if pid in legacy then legacy[pid].skus else [];
        && (Readable(pid) <==> forall id :: id in skus ==> id in env.catalog)
        && (Readable(pid) ==>
          var a := Stored(pid);
          && a.coins == (if pid in legacy && legacy[pid].coins.Some? then legacy[pid].coins.value else startBalance)
          && (forall i :: i in a.items <==> exists id :: id in skus && i in env.catalog[id].items)
          && a.races.receipts == {} && a.races.online == map[] && a.pitStop == None && a.challenges == map[])
    {
    }

    predicate Readable(pid: nat)
      reads this
    {
      pid in accounts || NewAccount(pid).Some?
    }

    /** What a load of the account yields. */
    function Stored(pid: nat): Account
      reads this
    {
      if pid in accounts then accounts[pid]
      else if NewAccount(pid).Some? then NewAccount(pid).value
      else Account(0, {}, RaceBook({}, map[]), None, map[])
    }

    /** A step on an account that cannot be made from its old files fails like one that cannot
        be read. */
    function Felt(pid: nat, f: Fault): Fault
      reads this
    {
      if Readable(pid) then f else LoadFails
    }

    function AllFelt(pid: nat, f: Faults): Faults
      reads this
    {
      Faults(Felt(pid, f.races), Felt(pid, f.refresh), Felt(pid, f.challenges))
    }

    /** Only this player's file may have changed, and whether it can be read has not. */
    twostate predicate OthersKept(pid: nat)
      reads this
    {
      && Readable(pid) == old(Readable(pid))
      && forall o :: o != pid ==> (o in accounts <==> o in old(accounts)) && (o in accounts ==> accounts[o] == old(accounts)[o])
    }

    /** A player's first load makes the account from the old files and saves it. */
    method Load(pid: nat, f: Fault) returns (a: Option<Account>)
      modifies this`accounts
      ensures a == if old(Felt(pid, f)).LoadFails? then None else Some(old(Stored(pid)))
      ensures Stored(pid) == old(Stored(pid)) && OthersKept(pid)
      ensures a.None? ==> accounts == old(accounts)
    {
      if f.LoadFails? { return None; }
      if pid !in accounts {
        var made := Migrate(pid);
        if made.None? { return None; }
        accounts := accounts[pid := made.value];
      }
      a := Some(accounts[pid]);
    }

    method Migrate(pid: nat) returns (a: Option<Account>)
      ensures a == NewAccount(pid)
    {
      var l := Old(pid);
      var items: set<nat> := {};
      for i := 0 to |l.skus|
        invariant items == AllItems(env.catalog, l.skus[..i])
        invariant forall id :: id in l.skus[..i] ==> id in env.catalog
      {
        var id := l.skus[i];
        assert id in l.skus && l.skus[..i+1] == l.skus[..i] + [id];
        if id !in env.catalog { return None; }
        items := items + ItemSet(env.catalog[id]);
      }
      assert l.skus[..|l.skus|] == l.skus;
      a := Some(Account(if l.coins.Some? then l.coins.value else startBalance, items, RaceBook({}, map[]), None, map[]));
    }

    /** All or nothing. */
    method Save(pid: nat, a: Account, f: Fault) returns (ok: bool)
      modifies this`accounts
      ensures ok <==> !f.SaveFails?
      ensures accounts == if ok then old(accounts)[pid := a] else old(accounts)
    {
      ok := !f.SaveFails?;
      if ok { accounts := accounts[pid := a]; }
    }

    /** What one race pays, and the day's online time with it. */
    method Pay(e: Event, online: map<int, nat>) returns (amount: int, after: map<int, nat>)
      requires Usable(env) && e.Val("Track") in env.rates && e.Val("Rank") >= 1
      ensures amount == Payout(env.rates, online, e) == Fare(env.rates, e, Played(online, e.timestamp / 86400))
      ensures after == AfterRace(online, e)
    {
      PayoutIsFare(env.rates, online, e);
      hide Fare;
      amount := env.rates[e.Val("Track")][Min(e.Val("Rank") - 1, 3)];
      if e.Val("RaceMode") == 15 {
        amount := Quo(amount * Min(e.Val("CompletedLap"), 8), 3);
      }
      after := online;
      if e.Val("Online") != 0 {
        var day := Day(e);
        if Played(online, day) < 1800 { amount := amount * 5; }
        after := online[day := Played(online, day) + e.Val("Time")];
      }
      if Weekend(e.timestamp) { amount := amount * 2; }
      if e.Val("RewardGoldenWumpa") == 1 { amount := amount + 200; }
    }

    lemma TotalSnoc(paid: seq<Payment>, p: Payment)
      ensures Total(paid + [p]) == Total(paid) + p.amount
    {
      assert (paid + [p])[..|paid|] == paid;
    }

    lemma PaidNext(book: RaceBook, events: seq<Event>, i: nat, now: nat)
      requires Usable(env) && i < |events|
      ensures PayRaces(env.rates, book, events[..i+1], now)
        == PayOne(env.rates, PayRaces(env.rates, book, events[..i], now), events[i], now)
    {
      assert events[..i+1][..i] == events[..i];
      hide PayOne;
    }

    /** The loop over the reported races. */
    method CreditRaces(book: RaceBook, events: seq<Event>, now: nat) returns (after: RaceBook, total: int)
      requires Usable(env)
      ensures after == PayRaces(env.rates, book, events, now).book
      ensures total == Total(PayRaces(env.rates, book, events, now).paid)
    {
      hide Qualifies, Payout, Total;
      var receipts: set<Event>, online: map<int, nat> := book.receipts, book.online;
      ghost var paid: seq<Payment> := [];
      total := 0;
      NothingPaid(book, now);
      for i := 0 to |events|
        invariant RaceRun(RaceBook(receipts, online), paid) == PayRaces(env.rates, book, events[..i], now)
        invariant total == Total(paid)
      {
        hide PayRaces;
        var e := events[i];
        PaidNext(book, events, i, now);
        if !Qualifies(env.rates, e, now) || e in receipts { continue; }
        QualifiesPays(e, now);
        var amount;
        amount, online := Pay(e, online);
        receipts := receipts + {e};
        TotalSnoc(paid, Payment(e, amount));
        paid := paid + [Payment(e, amount)];
        total := total + amount;
      }
      assert events[..|events|] == events;
      after := RaceBook(receipts, online);
    }

    lemma NothingPaid(book: RaceBook, now: nat)
      requires Usable(env)
      ensures Total([]) == 0 && PayRaces(env.rates, book, [], now) == RaceRun(book, [])
    {
    }

    lemma QualifiesPays(e: Event, now: nat)
      requires Qualifies(env.rates, e, now)
      ensures e.Val("Track") in env.rates && e.Val("Rank") >= 1
    {
    }

    method AwardRaces(pid: nat, events: seq<Event>, now: nat, f: Fault, ghost r: Delivery) returns (ok: bool, total: int)
      requires Usable(env) && r.events == events && r.racesAt == now
      modifies this`accounts
      ensures ok == RacesStep(env, old(Stored(pid)), r, old(Felt(pid, f))).ok
      ensures Stored(pid) == RacesStep(env, old(Stored(pid)), r, old(Felt(pid, f))).account && OthersKept(pid)
      ensures total == if ok then Total(PayRaces(env.rates, old(Stored(pid)).races, events, now).paid) else 0
      ensures Stored(pid).coins == old(Stored(pid)).coins + total
    {
      hide PayRaces, Total;
      var loaded := Load(pid, f);
      if loaded.None? { return false, 0; }
      var a := loaded.value;
      var after, sum := CreditRaces(a.races, events, now);
      ok, total := true, sum;
      if total != 0 {
        ok := Save(pid, a.(races := after, coins := a.coins + total), f);
        if !ok { total := 0; }
      }
    }

    method ReportRefresh(pid: nat, events: seq<Event>, now: nat, f: Fault, ghost r: Delivery) returns (ok: bool)
      requires r.events == events && r.refreshAt == now
      modifies this`accounts
      ensures ok == RefreshStep(old(Stored(pid)), r, old(Felt(pid, f))).ok
      ensures Stored(pid) == RefreshStep(old(Stored(pid)), r, old(Felt(pid, f))).account && OthersKept(pid)
    {
      var asked := false;
      for i := 0 to |events|
        invariant asked <==> exists e :: e in events[..i] && PitStopRefresh.IsRequest(e)
      {
        assert events[..i+1] == events[..i] + [events[i]];
        assert forall e :: e in events[..i+1] <==> e in events[..i] || e == events[i];
        if PitStopRefresh.IsRequest(events[i]) { asked := true; }
      }
      assert events[..|events|] == events;
      NoRequests(old(Stored(pid)), events, now);
      if !asked { return true; }
      var loaded := Load(pid, f);
      if loaded.None? { return false; }
      var a := loaded.value;
      var record := PitStopRefresh.Today(a.pitStop, now);
      var valid := false;
      for i := 0 to |events|
        invariant PitStopRefresh.Run(record, valid) == PitStopRefresh.Spend(PitStopRefresh.Today(a.pitStop, now), events[..i], now)
      {
        var e := events[i];
        assert events[..i+1][..i] == events[..i];
        if !PitStopRefresh.IsRequest(e) || !PitStopRefresh.InDay(e, now) { continue; }
        valid := true;
        if e !in record.receipts && record.count < PitStopRefresh.DAILY_LIMIT {
          record := record.(count := record.count + 1, receipts := record.receipts + {e});
        }
      }
      assert events[..|events|] == events;
      ok := true;
      if valid { ok := Save(pid, a.(pitStop := Some(record)), f); }
    }

    /** awardChallenges' inner loop: one rule against one report. */
    static method TrackRule(rule: Rule, slot: Challenges.Slot, record: Completion, events: seq<Event>, now: nat)
      returns (c: Completion, done: bool, changed: bool)
      ensures var t := Challenges.Track(rule, slot, now, record, events); c == t.record && done == t.done && changed == t.changed
    {
      hide Challenges.Track, Challenges.Counts, Challenges.Increment, Sub64, Add64;
      var target := slot.period.target;
      var seen: multiset<Event> := multiset{};
      c, done, changed := record, false, false;
      var i := 0;
      TrackNothing(rule, slot, now, record, events);
      while i < |events| && !done
        invariant i <= |events|
        invariant Challenges.Tracking(c, seen, done, changed) == Challenges.Track(rule, slot, now, record, events[..i])
      {
        var e := events[i];
        TrackNext(rule, slot, now, record, events, i);
        i := i + 1;
        if !Challenges.Counts(rule, slot, e, now) { continue; }
        var increment := Challenges.Increment(rule, e);
        seen := seen + multiset{e};
        if c.receipts[e] >= seen[e] { continue; }
        c := c.(receipts := c.receipts[e := seen[e]]);
        changed := true;
        if rule.name == Challenges.DISTINCT_RULE {
          if !Challenges.BattleMode(e) || e.values["X"] in c.distinct { continue; }
          c := c.(distinct := c.distinct + {e.values["X"]});
          increment := 1;
        }
        if increment >= Sub64(target, c.progress) {
          c := c.(progress := target, completed := e.timestamp, receipts := multiset{});
          done := true;
        } else {
          c := c.(progress := Add64(c.progress, increment));
        }
      }
      TrackStops(rule, slot, now, record, events, i);
      assert events[..|events|] == events;
    }

    method AwardChallenges(pid: nat, events: seq<Event>, now: nat, f: Fault, ghost r: Delivery) returns (ok: bool, credit: int)
      requires Usable(env) && r.events == events && r.challengesAt == now
      modifies this`accounts
      ensures ok == ChallengesStep(env, old(Stored(pid)), r, old(Felt(pid, f))).ok
      ensures Stored(pid) == ChallengesStep(env, old(Stored(pid)), r, old(Felt(pid, f))).account && OthersKept(pid)
      ensures credit == if ok then Challenges.AwardAll(env.schedule, env.schedule.rules, old(Stored(pid)).challenges, events, now).credit else 0
      ensures Stored(pid).coins == old(Stored(pid)).coins + credit
    {
      var loaded := Load(pid, f);
      if loaded.None? { return false, 0; }
      var a := loaded.value;
      var s, rules := env.schedule, env.schedule.rules;
      var challenges, changed := a.challenges, false;
      ghost var awards: seq<Challenges.Award> := [];
      ghost var table := accounts;
      credit := 0;
      for i := 0 to |rules|
        invariant accounts == table
        invariant Challenges.Progress(challenges, credit, changed, awards) == Challenges.AwardAll(s, rules[..i], a.challenges, events, now)
      {
        var rule := rules[i];
        assert rules[..i+1][..i] == rules[..i];
        var slot := Challenges.Current(s, rule, Unix(now));
        if slot.None? { continue; }
        var key := Challenges.KeyOf(rule, slot.value);
        var record := Challenges.RecordAt(challenges, key);
        if record.completed != 0 { continue; }
        var c, done, moved := TrackRule(rule, slot.value, record, events, now);
        if moved {
          challenges, changed := challenges[key := c], true;
          if done {
            credit := credit + rule.reward;
            awards := awards + [Challenges.Award(key, rule.reward)];
          }
        }
      }
      assert rules[..|rules|] == rules;
      Challenges.UnchangedMeansSame(s, rules, a.challenges, events, now);
      ok := true;
      if !changed { return true, 0; }
      ok := Save(pid, a.(challenges := challenges, coins := a.coins + credit), f);
      if !ok { credit := 0; }
    }

    /** The three steps of a report, each saved on its own; the first failure is returned to the
        client, which sends the whole report again. The credit a success announces is exactly what
        the stored balance grew by. */
    method OnReport(pid: nat, r: Delivery, f: Faults) returns (ok: bool, credit: int)
      requires Usable(env)
      modifies this`accounts
      ensures ok == Try(env, old(Stored(pid)), r, old(AllFelt(pid, f))).ok
      ensures Stored(pid) == Try(env, old(Stored(pid)), r, old(AllFelt(pid, f))).account && OthersKept(pid)
      ensures ok ==> Stored(pid).coins == old(Stored(pid)).coins + credit
    {
      var more;
      RefreshFree(Stored(pid), r, AllFelt(pid, f));
      hide RacesStep, RefreshStep, ChallengesStep, NewAccount;
      ok, credit := AwardRaces(pid, r.events, r.racesAt, f.races, r);
      if !ok { return; }
      ok := ReportRefresh(pid, r.events, r.refreshAt, f.refresh, r);
      if !ok { return; }
      ok, more := AwardChallenges(pid, r.events, r.challengesAt, f.challenges, r);
      credit := credit + more;
    }

    /** The refresh costs and earns nothing. */
    lemma RefreshFree(a: Account, r: Delivery, f: Faults)
      requires Usable(env)
      ensures RefreshStep(RacesStep(env, a, r, f.races).account, r, f.refresh).account.coins == RacesStep(env, a, r, f.races).account.coins
    {
      hide RacesStep;
    }

    /** The report task on the bytes a client sends: a report that cannot be read changes nothing. */
    method OnAchievements(pid: nat, payload: Bytes, racesAt: nat, refreshAt: nat, challengesAt: nat, f: Faults)
      returns (ok: bool, credit: int)
      requires Usable(env)
      modifies this`accounts
      ensures var events := WireEvents.ParseRewardEvents(payload);
        if events.None? then !ok && accounts == old(accounts)
        else
          var t := Try(env, old(Stored(pid)), Delivery(events.value, racesAt, refreshAt, challengesAt), old(AllFelt(pid, f)));
          ok == t.ok && Stored(pid) == t.account && OthersKept(pid)
      ensures ok ==> Stored(pid).coins == old(Stored(pid)).coins + credit
    {
      var events := WireEvents.ParseReport(payload);
      if events.None? { return false, 0; }
      ok, credit := OnReport(pid, Delivery(events.value, racesAt, refreshAt, challengesAt), f);
    }

    /** Buys a list of SKUs in order, all or nothing. */
    method Purchase(pid: nat, skus: seq<nat>, f: Fault) returns (debit: Option<int>)
      modifies this`accounts
      ensures var cart := Bought(env.catalog, old(Stored(pid)), skus);
        && (debit.Some? <==> old(Felt(pid, f)).NoFault? && cart.Some?)
        && (debit.Some? ==> debit.value == cart.value.total)
        && Stored(pid) == (if debit.Some? then PurchaseStored(env.catalog, old(Stored(pid)), skus) else old(Stored(pid)))
        && OthersKept(pid)
    {
      var loaded := Load(pid, f);
      if loaded.None? { return None; }
      var a := loaded.value;
      var cart := Cart(a.coins, a.items, 0);
      ghost var table := accounts;
      for i := 0 to |skus|
        invariant accounts == table
        invariant Some(cart) == Fill(env.catalog, Cart(a.coins, a.items, 0), skus[..i])
      {
        assert skus[..i+1][..i] == skus[..i];
        FillStops(env.catalog, Cart(a.coins, a.items, 0), skus, i + 1);
        if skus[i] !in env.catalog { return None; }
        var sku := env.catalog[skus[i]];
        var price := SkuPrice(cart.items, sku);
        if price.None? || price.value < 0 || price.value > cart.coins { return None; }
        cart := Cart(cart.coins - price.value, cart.items + ItemSet(sku), cart.total + price.value);
      }
      assert skus[..|skus|] == skus;
      var ok := Save(pid, a.(coins := cart.coins, items := cart.items), f);
      debit := if ok then Some(cart.total) else None;
    }

    method SkuPrice(items: set<nat>, sku: Sku) returns (price: Option<int>)
      ensures price == Price(env.catalog, items, sku)
    {
      if Owns(items, sku) { return Some(0); }
      if |sku.parts| == 0 { return Some(sku.price); }
      var sum := 0;
      for i := 0 to |sku.parts|
        invariant PartsPrice(env.catalog, items, sku.parts[..i]) == Some(sum)
      {
        assert sku.parts[..i+1][..i] == sku.parts[..i];
        PartsStop(env.catalog, items, sku.parts, i + 1);
        if sku.parts[i] !in env.catalog { return None; }
        var part := env.catalog[sku.parts[i]];
        if !Owns(items, part) { sum := sum + part.price; }
      }
      assert sku.parts[..|sku.parts|] == sku.parts;
      price := Some(sum);
    }
  }

  lemma NoRequests(a: Account, events: seq<Event>, now: nat)
    ensures (forall e :: e in events ==> !PitStopRefresh.IsRequest(e)) ==> PitStopRefresh.RefreshStored(a, events, now) == a
  {
    PitStopRefresh.SpendFrame(PitStopRefresh.Today(a.pitStop, now), events, now);
  }

  lemma TrackNothing(rule: Rule, slot: Challenges.Slot, now: nat, record: Completion, events: seq<Event>)
    ensures Challenges.Track(rule, slot, now, record, events[..0]) == Challenges.Tracking(record, multiset{}, false, false)
  {
  }

  lemma TrackNext(rule: Rule, slot: Challenges.Slot, now: nat, record: Completion, events: seq<Event>, i: nat)
    requires i < |events|
    ensures Challenges.Track(rule, slot, now, record, events[..i+1])
      == Challenges.TrackOne(rule, slot, now, Challenges.Track(rule, slot, now, record, events[..i]), events[i])
  {
    assert events[..i+1][..i] == events[..i];
    hide Challenges.TrackOne;
  }

  lemma {:induction false} TrackStops(rule: Rule, slot: Challenges.Slot, now: nat, record: Completion, events: seq<Event>, i: nat)
    requires i <= |events|
    ensures Challenges.Track(rule, slot, now, record, events[..i]).done ==>
      Challenges.Track(rule, slot, now, record, events) == Challenges.Track(rule, slot, now, record, events[..i])
    decreases |events|
  {
    if i < |events| {
      TrackStops(rule, slot, now, record, events[..|events|-1], i);
      assert events[..|events|-1][..i] == events[..i];
    } else {
      assert events[..i] == events;
    }
  }

  lemma {:induction false} FillStops(catalog: Catalog, cart: Cart, skus: seq<nat>, i: nat)
    requires i <= |skus|
    ensures Fill(catalog, cart, skus[..i]).None? ==> Fill(catalog, cart, skus).None?
    decreases |skus|
  {
    if i < |skus| {
      FillStops(catalog, cart, skus[..|skus|-1], i);
      assert skus[..|skus|-1][..i] == skus[..i];
    } else {
      assert skus[..i] == skus;
    }
  }

  lemma {:induction false} PartsStop(catalog: Catalog, items: set<nat>, parts: seq<nat>, i: nat)
    requires i <= |parts|
    ensures PartsPrice(catalog, items, parts[..i]).None? ==> PartsPrice(catalog, items, parts).None?
    decreases |parts|
  {
    if i < |parts| {
      PartsStop(catalog, items, parts[..|parts|-1], i);
      assert parts[..|parts|-1][..i] == parts[..i];
    } else {
      assert parts[..i] == parts;
    }
  }
}
