/** Race payouts (ctr_rewards.go:157-234). */
module RaceAwards {
  import opened Common
  import opened EconomyTypes

  /** Payouts by finishing position, track by track. */
  type Rates = map<nat, seq<int>>

  ghost predicate RatesOk(rates: Rates) {
    forall t :: t in rates ==> |rates[t]| == 4 && forall i :: 0 <= i < 4 ==> rates[t][i] >= 0
  }

  predicate HasRates(rates: Rates) { forall t :: t in rates ==> |rates[t]| == 4 }

  predicate Qualifies(rates: Rates, e: Event, now: nat) {
    && e.name == "end_race" && e.Val("Track") in rates
    && 1 <= e.Val("Rank") <= 8 && 0 < e.Val("Time") <= 86400 && 0 < e.Val("CompletedLap") <= 100
    && e.timestamp != 0
    && e.timestamp * SECOND <= now + 300 * SECOND && e.timestamp * SECOND >= now - 7 * 86400 * SECOND
  }

  /** Sunday is day 0; 1 January 1970 was a Thursday. */
  function Weekday(unix: int): int { (unix / 86400 + 4) % 7 }

  predicate Weekend(unix: int) {
    Weekday(unix - 17 * 3600) == 5 || Weekday(unix - 17 * 3600) == 6 || Weekday(unix - 8 * 3600) == 0
  }

  function Day(e: Event): int { e.timestamp / 86400 }
  function Played(online: map<int, nat>, day: int): nat { if day in online then online[day] else 0 }

  function Payout(rates: Rates, online: map<int, nat>, e: Event): int
    requires HasRates(rates) && e.Val("Track") in rates && e.Val("Rank") >= 1
  {
    var place := rates[e.Val("Track")][Min(e.Val("Rank") - 1, 3)];
    var laps := if e.Val("RaceMode") == 15 then Quo(place * Min(e.Val("CompletedLap"), 8), 3) else place;
    var net := if e.Val("Online") != 0 && Played(online, Day(e)) < 1800 then laps * 5 else laps;
    var week := if Weekend(e.timestamp) then net * 2 else net;
    if e.Val("RewardGoldenWumpa") == 1 then week + 200 else week
  }

  /** An online race adds its seconds to its day. */
  function AfterRace(online: map<int, nat>, e: Event): map<int, nat> {
    if e.Val("Online") == 0 then online else online[Day(e) := Played(online, Day(e)) + e.Val("Time")]
  }

  /** Who was paid what. */
  datatype Payment = Payment(event: Event, amount: int)
  datatype RaceRun = RaceRun(book: RaceBook, paid: seq<Payment>)

  function PayOne(rates: Rates, run: RaceRun, e: Event, now: nat): RaceRun
    requires HasRates(rates)
  {
    if !Qualifies(rates, e, now) || e in run.book.receipts then run else
      RaceRun(RaceBook(run.book.receipts + {e}, AfterRace(run.book.online, e)), run.paid + [Payment(e, Payout(rates, run.book.online, e))])
  }

  function PayRaces(rates: Rates, book: RaceBook, events: seq<Event>, now: nat): RaceRun
    requires HasRates(rates)
  {
    if events == [] then RaceRun(book, [])
    else PayOne(rates, PayRaces(rates, book, events[..|events|-1], now), events[|events|-1], now)
  }

  function Total(paid: seq<Payment>): int {
    if paid == [] then 0 else Total(paid[..|paid|-1]) + paid[|paid|-1].amount
  }

  /** What the step leaves stored: nothing changes when nothing was earned. */
  function RacesStored(rates: Rates, a: Account, events: seq<Event>, now: nat): Account
    requires HasRates(rates)
  {
    var run := PayRaces(rates, a.races, events, now);
    if Total(run.paid) == 0 then a else a.(races := run.book, coins := a.coins + Total(run.paid))
  }

  // ---------- properties ----------

  /** Every paid event is new and paid once, and exactly the paid events become receipts. */
  ghost predicate PaidOnce(book: RaceBook, run: RaceRun) {
    && (forall i, j :: 0 <= i < j < |run.paid| ==> run.paid[i].event != run.paid[j].event)
    && (forall p :: p in run.paid ==> p.event !in book.receipts)
    && run.book.receipts == book.receipts + set p | p in run.paid :: p.event
  }

  lemma PaidNext(book: RaceBook, run: RaceRun, p: Payment, online: map<int, nat>)
    requires PaidOnce(book, run) && p.event !in run.book.receipts
    ensures PaidOnce(book, RaceRun(RaceBook(run.book.receipts + {p.event}, online), run.paid + [p]))
  {
    assert forall x :: x in run.paid ==> x.event in run.book.receipts;
    assert forall i :: 0 <= i < |run.paid| ==> run.paid[i] in run.paid;
    assert forall x :: x in run.paid + [p] <==> x in run.paid || x == p;
  }

  lemma {:induction false} RacesPaidOnce(rates: Rates, book: RaceBook, events: seq<Event>, now: nat)
    requires HasRates(rates)
    ensures PaidOnce(book, PayRaces(rates, book, events, now))
    ensures forall e :: e in events && Qualifies(rates, e, now) ==> e in PayRaces(rates, book, events, now).book.receipts
    decreases |events|
  {
    if events != [] {
      hide Qualifies, Payout, PaidOnce, AfterRace;
      var before, e := events[..|events|-1], events[|events|-1];
      assert events == before + [e];
      RacesPaidOnce(rates, book, before, now);
      var run := PayRaces(rates, book, before, now);
      if Qualifies(rates, e, now) && e !in run.book.receipts {
        PaidNext(book, run, Payment(e, Payout(rates, run.book.online, e)), AfterRace(run.book.online, e));
      }
    } else {
      assert PaidOnce(book, RaceRun(book, []));
    }
  }

  /** Once every qualifying event has a receipt, nothing is paid. */
  lemma {:induction false} NothingLeft(rates: Rates, book: RaceBook, events: seq<Event>, now: nat)
    requires HasRates(rates)
    requires forall e :: e in events && Qualifies(rates, e, now) ==> e in book.receipts
    ensures PayRaces(rates, book, events, now) == RaceRun(book, [])
  {
    if events != [] { NothingLeft(rates, book, events[..|events|-1], now); }
  }

  /** The step is idempotent, and a later change of other parts of the account does not
      make it pay again. */
  lemma RacesSettled(rates: Rates, a: Account, b: Account, events: seq<Event>, now: nat)
    requires HasRates(rates) && b.races == RacesStored(rates, a, events, now).races
    ensures RacesStored(rates, b, events, now) == b
  {
    if Total(PayRaces(rates, a.races, events, now).paid) != 0 {
      RacesPaidOnce(rates, a.races, events, now);
      NothingLeft(rates, b.races, events, now);
    }
  }

  /** With rates that are never negative, a payment is never negative. */
  lemma {:induction false} PaymentsNonNegative(rates: Rates, book: RaceBook, events: seq<Event>, now: nat)
    requires HasRates(rates) && RatesOk(rates)
    ensures forall p :: p in PayRaces(rates, book, events, now).paid ==> p.amount >= 0
    ensures Total(PayRaces(rates, book, events, now).paid) >= 0
  {
    if events != [] {
      var before, e := events[..|events|-1], events[|events|-1];
      PaymentsNonNegative(rates, book, before, now);
      var run := PayRaces(rates, book, before, now);
      if Qualifies(rates, e, now) && e !in run.book.receipts {
        var p := Payment(e, Payout(rates, run.book.online, e));
        PayoutNonNegative(rates, run.book.online, e);
        assert (run.paid + [p])[..|run.paid|] == run.paid;
      }
    }
  }

  lemma PayoutNonNegative(rates: Rates, online: map<int, nat>, e: Event)
    requires HasRates(rates) && RatesOk(rates) && e.Val("Track") in rates && e.Val("Rank") >= 1
    ensures Payout(rates, online, e) >= 0
  {
    var place := rates[e.Val("Track")][Min(e.Val("Rank") - 1, 3)];
    assert place >= 0;
    assert place * Min(e.Val("CompletedLap"), 8) >= 0;
  }

  /** Seconds since the Friday 17:00 that starts a race weekend, in the week it belongs to.
      Friday 2 January 1970 17:00 UTC is second 147600. */
  function SinceFridayEvening(unix: int): int { (unix - 147600) % 604800 }

  /** The doubled payout lasts exactly from Friday 17:00 to Monday 08:00 UTC: 63 hours. */
  lemma WeekendWindow(unix: int)
    ensures Weekend(unix) <==> SinceFridayEvening(unix) < 63 * 3600
  {
    hide *;
    var week, s := WeekOf(unix);
    WeekdayOf(unix - 17 * 3600, week, s + 86400);
    WeekdayOf(unix - 8 * 3600, week, s + 118800);
    var j := DayCount(s + 86400);
    var k := DayCount(s + 118800);
    WeekdayName(j, 1);
    WeekdayName(j, 2);
    WeekdayName(k, 3);
    WeekendNames(unix);
  }

  lemma WeekOf(unix: int) returns (week: int, s: int)
    ensures s == SinceFridayEvening(unix) && unix == week * 604800 + 147600 + s && 0 <= s < 604800
  {
    week, s := (unix - 147600) / 604800, SinceFridayEvening(unix);
  }

  lemma WeekendNames(unix: int)
    ensures Weekend(unix) <==> Weekday(unix - 17 * 3600) in {5, 6} || Weekday(unix - 8 * 3600) == 0
  {
    hide Weekday;
  }

  /** Day `d` of a week that starts on a Thursday, the one before included. */
  lemma WeekdayName(j: int, d: int)
    requires 0 <= j <= 8 && 1 <= d <= 3
    ensures (j + 4) % 7 == (d + 4) % 7 <==> j == d || j == d + 7
  {
  }

  lemma DayCount(t: int) returns (k: int)
    requires 0 <= t < 9 * 86400
    ensures k == t / 86400 && 0 <= k <= 8 && k * 86400 <= t < (k + 1) * 86400
  {
    k := t / 86400;
  }

  lemma WeekdayOf(unix: int, week: int, t: int)
    requires unix == week * 604800 + t && t >= 0
    ensures Weekday(unix) == (t / 86400 + 4) % 7
  {
    assert unix / 86400 == 7 * week + t / 86400;
    assert (7 * week + t / 86400 + 4) % 7 == (t / 86400 + 4) % 7;
  }

  // ---------- what is paid, and for what ----------

  /** A race the server pays for, told from its values and the clock alone. */
  predicate RaceInOrder(rates: Rates, e: Event, now: nat) {
    var (rank, time, laps) := (e.Val("Rank"), e.Val("Time"), e.Val("CompletedLap"));
    && e.name == "end_race" && e.Val("Track") in rates
    && rank != 0 && rank < 9 && time != 0 && time < 86401 && laps != 0 && laps < 101
    && 0 < e.timestamp && now - 604_800_000_000_000 <= e.timestamp * 1_000_000_000 <= now + 300_000_000_000
  }

  lemma QualifiesIsInOrder(rates: Rates, e: Event, now: nat)
    ensures Qualifies(rates, e, now) <==> RaceInOrder(rates, e, now)
  {
  }

  /** Friday 17:00 to Monday 08:00 UTC, counted in seconds since Friday. */
  predicate InWeekend(unix: int) { SinceFridayEvening(unix) < 63 * 3600 }

  /** The coins for a race, when the day's earlier online races took `earlier` seconds: the tabled
      amount of the place, the fourth for all places behind; in mode 15 a third of it for each lap,
      for eight laps at most; five times that online while the day's earlier races took less than
      half an hour; twice that on a weekend; and 200 for a Golden Wumpa. */
  function Fare(rates: Rates, e: Event, earlier: nat): int
    requires HasRates(rates) && e.Val("Track") in rates && e.Val("Rank") >= 1
  {
    var (rank, laps) := (e.Val("Rank"), e.Val("CompletedLap"));
    var place := rates[e.Val("Track")][if rank > 4 then 3 else rank - 1];
    var race := if e.Val("RaceMode") != 15 then place else Third(place * if laps > 8 then 8 else laps);
    (if e.Val("Online") != 0 && earlier < 1800 then 5 else 1) * race * (if InWeekend(e.timestamp) then 2 else 1)
      + (if e.Val("RewardGoldenWumpa") == 1 then 200 else 0)
  }

  /** A third, rounded toward zero. */
  function Third(n: int): (t: int)
    ensures n >= 0 ==> 3 * t <= n < 3 * t + 3
    ensures n <= 0 ==> 3 * t - 3 < n <= 3 * t
  {
    if n >= 0 then n / 3 else -((-n) / 3)
  }

  lemma PayoutIsFare(rates: Rates, online: map<int, nat>, e: Event)
    requires HasRates(rates) && e.Val("Track") in rates && e.Val("Rank") >= 1
    ensures Payout(rates, online, e) == Fare(rates, e, Played(online, e.timestamp / 86400))
  {
    WeekendWindow(e.timestamp);
    var place := rates[e.Val("Track")][Min(e.Val("Rank") - 1, 3)];
    var laps := place * Min(e.Val("CompletedLap"), 8);
    assert Quo(laps, 3) == Third(laps);
    hide Weekend, Played, SinceFridayEvening, Quo, Third;
  }

  /** The seconds of the online races of a day among these payments. */
  function OnlineSeconds(paid: seq<Payment>, day: int): nat {
    if paid == [] then 0 else
      var e := paid[|paid|-1].event;
      OnlineSeconds(paid[..|paid|-1], day) + if e.Val("Online") != 0 && e.timestamp / 86400 == day then e.Val("Time") else 0
  }

  /** The events of a report that are paid, in order: those in order, new, and not named before. */
  function Payable(rates: Rates, receipts: set<Event>, events: seq<Event>, now: nat): seq<Event> {
    if events == [] then [] else
      var before, e := Payable(rates, receipts, events[..|events|-1], now), events[|events|-1];
      if RaceInOrder(rates, e, now) && e !in receipts && e !in before then before + [e] else before
  }

  /** The payments `paid` are for exactly these races, in this order, each at its fare. */
  ghost predicate PaidFor(rates: Rates, online: map<int, nat>, due: seq<Event>, paid: seq<Payment>)
    requires HasRates(rates)
  {
    |paid| == |due| && forall i :: 0 <= i < |paid| ==>
      && paid[i].event == due[i] && due[i].Val("Track") in rates && due[i].Val("Rank") >= 1
      && paid[i].amount == Fare(rates, due[i], Played(online, due[i].timestamp / 86400) + OnlineSeconds(paid[..i], due[i].timestamp / 86400))
  }

  ghost predicate Racing(rates: Rates, book: RaceBook, due: seq<Event>, run: RaceRun)
    requires HasRates(rates)
  {
    && PaidFor(rates, book.online, due, run.paid)
    && run.book.receipts == book.receipts + (set e | e in due)
    && forall day :: Played(run.book.online, day) == Played(book.online, day) + OnlineSeconds(run.paid, day)
  }

  lemma OnlineSecondsSnoc(paid: seq<Payment>, p: Payment, day: int)
    ensures OnlineSeconds(paid + [p], day) == OnlineSeconds(paid, day)
      + if p.event.Val("Online") != 0 && p.event.timestamp / 86400 == day then p.event.Val("Time") else 0
  {
    assert (paid + [p])[..|paid|] == paid;
  }

  lemma PaidForSnoc(rates: Rates, online: map<int, nat>, due: seq<Event>, paid: seq<Payment>, p: Payment)
    requires HasRates(rates) && PaidFor(rates, online, due, paid) && p.event.Val("Track") in rates && p.event.Val("Rank") >= 1
    requires var day := p.event.timestamp / 86400; p.amount == Fare(rates, p.event, Played(online, day) + OnlineSeconds(paid, day))
    ensures PaidFor(rates, online, due + [p.event], paid + [p])
  {
    hide Fare, OnlineSeconds, Played;
    forall i | 0 <= i < |paid| ensures (paid + [p])[..i] == paid[..i] {}
    assert (paid + [p])[..|paid|] == paid;
  }

  lemma RacingNext(rates: Rates, book: RaceBook, due: seq<Event>, run: RaceRun, e: Event)
    requires HasRates(rates) && Racing(rates, book, due, run) && e.Val("Track") in rates && e.Val("Rank") >= 1
    ensures Racing(rates, book, due + [e],
      RaceRun(RaceBook(run.book.receipts + {e}, AfterRace(run.book.online, e)), run.paid + [Payment(e, Payout(rates, run.book.online, e))]))
  {
    hide *;
    PayoutIsFare(rates, run.book.online, e);
    var p := Payment(e, Payout(rates, run.book.online, e));
    RacingParts(rates, book, due, run);
    PaidForSnoc(rates, book.online, due, run.paid, p);
    var run' := RaceRun(RaceBook(run.book.receipts + {e}, AfterRace(run.book.online, e)), run.paid + [p]);
    forall day ensures Played(run'.book.online, day) == Played(book.online, day) + OnlineSeconds(run'.paid, day) {
      OnlineSecondsSnoc(run.paid, p, day);
      AfterRacePlayed(run.book.online, e, day);
    }
    ReceiptsNext(book.receipts, due, e);
    RacingFrom(rates, book, due + [e], run');
  }

  lemma AfterRacePlayed(online: map<int, nat>, e: Event, day: int)
    ensures Played(AfterRace(online, e), day) ==
      Played(online, day) + if e.Val("Online") != 0 && e.timestamp / 86400 == day then e.Val("Time") else 0
  {
  }

  lemma RacingParts(rates: Rates, book: RaceBook, due: seq<Event>, run: RaceRun)
    requires HasRates(rates) && Racing(rates, book, due, run)
    ensures PaidFor(rates, book.online, due, run.paid) && run.book.receipts == book.receipts + (set e | e in due)
    ensures forall day :: Played(run.book.online, day) == Played(book.online, day) + OnlineSeconds(run.paid, day)
  {
    hide PaidFor, Played, OnlineSeconds;
  }

  lemma RacingFrom(rates: Rates, book: RaceBook, due: seq<Event>, run: RaceRun)
    requires HasRates(rates) && PaidFor(rates, book.online, due, run.paid) && run.book.receipts == book.receipts + (set e | e in due)
    requires forall day :: Played(run.book.online, day) == Played(book.online, day) + OnlineSeconds(run.paid, day)
    ensures Racing(rates, book, due, run)
  {
    hide PaidFor, Played, OnlineSeconds;
  }

  lemma ReceiptsNext(receipts: set<Event>, due: seq<Event>, e: Event)
    ensures receipts + (set x | x in due) + {e} == receipts + set x | x in due + [e]
  {
    assert forall x :: x in due + [e] <==> x in due || x == e;
  }

  lemma RacingFirst(rates: Rates, book: RaceBook)
    requires HasRates(rates)
    ensures Racing(rates, book, [], RaceRun(book, []))
  {
  }

  /** One race step pays exactly the races of the report that are in order and not paid before, each
      once and in the order reported, each at its fare; and counts their online seconds. */
  lemma {:induction false} RacesPaidExactly(rates: Rates, book: RaceBook, events: seq<Event>, now: nat)
    requires HasRates(rates)
    ensures Racing(rates, book, Payable(rates, book.receipts, events, now), PayRaces(rates, book, events, now))
    decreases |events|
  {
    if events == [] { RacingFirst(rates, book); } else {
      var before, e := events[..|events|-1], events[|events|-1];
      RacesPaidExactly(rates, book, before, now);
      QualifiesIsInOrder(rates, e, now);
      var due, run := Payable(rates, book.receipts, before, now), PayRaces(rates, book, before, now);
      assert e in run.book.receipts <==> e in book.receipts || e in due;
      if RaceInOrder(rates, e, now) { RacingNext(rates, book, due, run, e); }
      hide Racing, Qualifies, RaceInOrder, Payout, AfterRace;
    }
  }

  lemma OneFare(rates: Rates, book: RaceBook, e: Event, now: nat)
    requires HasRates(rates) && RaceInOrder(rates, e, now) && e !in book.receipts
    ensures PayRaces(rates, book, [e], now).paid == [Payment(e, Fare(rates, e, Played(book.online, e.timestamp / 86400)))]
  {
    QualifiesIsInOrder(rates, e, now);
    PayoutIsFare(rates, book.online, e);
    var one := [e];
    assert one[..0] == [] && one[0] == e;
    assert PayRaces(rates, book, one, now) == PayOne(rates, PayRaces(rates, book, [], now), e, now);
    hide Payout, Fare, Qualifies, AfterRace;
  }

  /** Two online races of one day in one report: the second is paid with the seconds of the first
      counted, on top of those the account had that day. */
  lemma SecondRaceOfDay(rates: Rates, book: RaceBook, e: Event, f: Event, now: nat)
    requires HasRates(rates) && e != f && e.Val("Online") != 0 && e.timestamp / 86400 == f.timestamp / 86400
    requires RaceInOrder(rates, e, now) && e !in book.receipts && RaceInOrder(rates, f, now) && f !in book.receipts
    ensures var day := e.timestamp / 86400;
      var had := if day in book.online then book.online[day] else 0;
      PayRaces(rates, book, [e, f], now).paid ==
        [Payment(e, Fare(rates, e, had)), Payment(f, Fare(rates, f, had + e.Val("Time")))]
  {
    OneFare(rates, book, e, now);
    QualifiesIsInOrder(rates, e, now);
    QualifiesIsInOrder(rates, f, now);
    var two, one, none := [e, f], [e], [];
    assert two[..1] == one && one[..0] == none && two[1] == f && one[0] == e;
    var run := PayRaces(rates, book, one, now);
    assert run == PayOne(rates, PayRaces(rates, book, none, now), e, now);
    PayoutIsFare(rates, run.book.online, f);
    hide Payout, Fare, Qualifies, RaceInOrder;
  }

  /** Two races that differ in their times only, both offline: the one on a weekend pays twice what
      the other pays, the Golden Wumpa aside; on two weekends or two working days they pay the same. */
  lemma WeekendPaysDouble(rates: Rates, book: RaceBook, e: Event, f: Event, now: nat, later: nat)
    requires HasRates(rates) && e.Val("Online") == 0 && f == e.(timestamp := f.timestamp)
    requires RaceInOrder(rates, e, now) && e !in book.receipts && RaceInOrder(rates, f, later) && f !in book.receipts
    ensures var (x, y) := (PayRaces(rates, book, [e], now).paid, PayRaces(rates, book, [f], later).paid);
      var golden := if e.Val("RewardGoldenWumpa") == 1 then 200 else 0;
      && |x| == |y| == 1
      && (SinceFridayEvening(e.timestamp) < 63 * 3600 && SinceFridayEvening(f.timestamp) >= 63 * 3600 ==>
            x[0].amount - golden == 2 * (y[0].amount - golden))
      && ((SinceFridayEvening(e.timestamp) < 63 * 3600 <==> SinceFridayEvening(f.timestamp) < 63 * 3600) ==> x[0].amount == y[0].amount)
  {
    OneFare(rates, book, e, now);
    OneFare(rates, book, f, later);
    assert f.Val("Online") == 0 && f.values == e.values;
    hide SinceFridayEvening, RaceInOrder, PayRaces, Third;
  }

  /** The same race online pays five times what it pays offline while the day's online races took
      less than half an hour, and the same afterwards. */
  lemma OnlinePaysFive(rates: Rates, book: RaceBook, e: Event, f: Event, now: nat)
    requires HasRates(rates) && e.Val("Online") != 0 && f.Val("Online") == 0 && f.name == e.name && f.timestamp == e.timestamp
    requires forall key :: key != "Online" ==> f.Val(key) == e.Val(key)
    requires RaceInOrder(rates, e, now) && e !in book.receipts && RaceInOrder(rates, f, now) && f !in book.receipts
    ensures var (x, y) := (PayRaces(rates, book, [e], now).paid, PayRaces(rates, book, [f], now).paid);
      var golden := if e.Val("RewardGoldenWumpa") == 1 then 200 else 0;
      && |x| == |y| == 1
      && x[0].amount - golden ==
        (if e.timestamp / 86400 in book.online && book.online[e.timestamp / 86400] >= 1800 then 1 else 5) * (y[0].amount - golden)
  {
    OneFare(rates, book, e, now);
    OneFare(rates, book, f, now);
    hide SinceFridayEvening, RaceInOrder, PayRaces, Third;
  }
}
