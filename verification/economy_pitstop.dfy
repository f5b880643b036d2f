/** The daily Pit Stop refresh (ctr_refresh.go). */
module PitStopRefresh {
  import opened Common
  import opened EconomyTypes

  const DAY: int := 86400
  const DAILY_LIMIT: nat := 2

  /** Days run from 15:00 UTC to 15:00 UTC. */
  function DayOf(now: nat): int { (Unix(now) - 15 * 3600) / DAY }
  function DayStart(day: int): int { day * DAY + 15 * 3600 }

  predicate IsRequest(e: Event) { e.name == "pitstop_daily_refresh" && e.Val("value") == 1 }

  /** A request counts only inside the current day. */
  predicate InDay(e: Event, now: nat) {
    DayStart(DayOf(now)) <= e.timestamp < DayStart(DayOf(now)) + DAY && NotFuture(e.timestamp, now)
  }

  predicate Counts(e: Event, now: nat) { IsRequest(e) && InDay(e, now) }

  datatype Run = Run(record: PitStop, valid: bool)

  function SpendOne(run: Run, e: Event, now: nat): Run {
    if !Counts(e, now) then run
    else if e !in run.record.receipts && run.record.count < DAILY_LIMIT then
      Run(run.record.(count := run.record.count + 1, receipts := run.record.receipts + {e}), true)
    else run.(valid := true)
  }

  function Spend(record: PitStop, events: seq<Event>, now: nat): Run {
    if events == [] then Run(record, false)
    else SpendOne(Spend(record, events[..|events|-1], now), events[|events|-1], now)
  }

  /** Yesterday's record does not carry over. */
  function Today(p: Option<PitStop>, now: nat): PitStop {
    if p.Some? && p.value.day == DayOf(now) then p.value else PitStop(DayOf(now), 0, {})
  }

  function RefreshStored(a: Account, events: seq<Event>, now: nat): Account {
    var run := Spend(Today(a.pitStop, now), events, now);
    if run.valid then a.(pitStop := Some(run.record)) else a
  }

  /** The state reported to the client. */
  function Reported(p: Option<PitStop>, now: nat): nat {
    Min(if p.Some? && p.value.day == DayOf(now) then p.value.count else 0, DAILY_LIMIT)
  }

  /** The window always contains the present. */
  lemma DayContainsNow(now: nat)
    ensures DayStart(DayOf(now)) <= Unix(now) < DayStart(DayOf(now)) + DAY
  {
  }

  // ---------- one request ----------

  /** The name, a value of one, the day from 15:00 to 15:00 UTC that `now` lies in, and not ahead of the
      clock by more than five minutes. */
  predicate AsksToday(e: Event, day: int, now: nat) {
    && e.name == "pitstop_daily_refresh" && "value" in e.values && e.values["value"] == 1
    && day * 86400 + 54000 <= e.timestamp < (day + 1) * 86400 + 54000
    && e.timestamp * 1_000_000_000 <= now + 300_000_000_000
  }

  lemma CountsIs(e: Event, day: int, now: nat)
    requires (day * 86400 + 54000) * 1_000_000_000 <= now < ((day + 1) * 86400 + 54000) * 1_000_000_000
    ensures DayOf(now) == day && (Counts(e, now) <==> AsksToday(e, day, now))
  {
    assert NotFuture(e.timestamp, now) <==> e.timestamp * SECOND <= now + 300 * SECOND;
    hide NotFuture;
  }

  /** What one event does to the account and to the count shown. One that does not ask today leaves
      everything as it was; one that does opens the day's record or adds to it, once each, up to two. */
  lemma OneRequest(a: Account, e: Event, day: int, now: nat)
    requires (day * 86400 + 54000) * 1_000_000_000 <= now < ((day + 1) * 86400 + 54000) * 1_000_000_000
    ensures var b := RefreshStored(a, [e], now);
      if !AsksToday(e, day, now) then b == a
      else if a.pitStop.None? || a.pitStop.value.day != day then b == a.(pitStop := Some(PitStop(day, 1, {e}))) && Reported(b.pitStop, now) == 1
      else
        var p := a.pitStop.value;
        if e in p.receipts || p.count >= 2 then b == a && Reported(b.pitStop, now) == Min(p.count, 2)
        else
          && b == a.(pitStop := Some(PitStop(day, p.count + 1, p.receipts + {e})))
          && Reported(b.pitStop, now) == p.count + 1
  {
    CountsIs(e, day, now);
    hide Counts, AsksToday, DayOf;
    var one := [e];
    assert one[..0] == [] && one[0] == e;
    var none: set<Event> := {};
    assert none + {e} == {e};
    assert Spend(Today(a.pitStop, now), one[..0], now) == Run(Today(a.pitStop, now), false);
  }

  // ---------- properties ----------

  lemma {:induction false} SpendFrame(record: PitStop, events: seq<Event>, now: nat)
    ensures Spend(record, events, now).record.day == record.day
    ensures Spend(record, events, now).valid <==> exists e :: e in events && Counts(e, now)
    ensures record.count <= Spend(record, events, now).record.count
    ensures forall e :: e in events && Counts(e, now) ==>
      e in Spend(record, events, now).record.receipts || Spend(record, events, now).record.count >= DAILY_LIMIT
  {
    if events != [] {
      var before, e := events[..|events|-1], events[|events|-1];
      assert events == before + [e];
      SpendFrame(record, before, now);
    }
  }

  lemma {:induction false} SpentIsSpent(record: PitStop, events: seq<Event>, now: nat)
    requires forall e :: e in events && Counts(e, now) ==> e in record.receipts || record.count >= DAILY_LIMIT
    ensures Spend(record, events, now).record == record
  {
    if events != [] {
      var before, e := events[..|events|-1], events[|events|-1];
      assert events == before + [e];
      SpentIsSpent(record, before, now);
    }
  }

  /** The step is idempotent, whatever else changed in the account meanwhile. */
  lemma RefreshSettled(a: Account, b: Account, events: seq<Event>, now: nat)
    requires b.pitStop == RefreshStored(a, events, now).pitStop
    ensures RefreshStored(b, events, now) == b
  {
    var record := Today(a.pitStop, now);
    SpendFrame(record, events, now);
    if Spend(record, events, now).valid {
      SpentIsSpent(Spend(record, events, now).record, events, now);
      assert Today(b.pitStop, now) == b.pitStop.value;
    } else {
      SpendFrame(Today(b.pitStop, now), events, now);
    }
  }

  /** The record `p` is what the distinct requests `seen` have made of the record `p0`: those it
      did not hold count one each, until the limit is reached. */
  ghost predicate Tallies(p0: PitStop, p: PitStop, seen: set<Event>) {
    && p0.receipts <= p.receipts <= p0.receipts + seen
    && p.count == p0.count + |p.receipts - p0.receipts|
    && (p.count < DAILY_LIMIT ==> p.receipts == p0.receipts + seen)
    && (p.count <= DAILY_LIMIT || p.count == p0.count)
  }

  ghost function Requests(events: seq<Event>, now: nat): set<Event> { set e | e in events && Counts(e, now) }

  lemma SpendOneTallies(p0: PitStop, run: Run, seen: set<Event>, e: Event, now: nat)
    requires Tallies(p0, run.record, seen)
    ensures Tallies(p0, SpendOne(run, e, now).record, if Counts(e, now) then seen + {e} else seen)
  {
    hide Counts;
    if Counts(e, now) && e !in run.record.receipts && run.record.count < DAILY_LIMIT {
      OneReceipt(p0.receipts, run.record.receipts, e);
    }
  }

  lemma OneReceipt(a: set<Event>, b: set<Event>, e: Event)
    requires a <= b && e !in b
    ensures |(b + {e}) - a| == |b - a| + 1
  {
    assert (b + {e}) - a == (b - a) + {e};
  }

  lemma SpendSnoc(record: PitStop, before: seq<Event>, e: Event, now: nat)
    ensures Spend(record, before + [e], now) == SpendOne(Spend(record, before, now), e, now)
    ensures Requests(before + [e], now) == if Counts(e, now) then Requests(before, now) + {e} else Requests(before, now)
  {
    hide Counts, SpendOne;
    assert (before + [e])[..|before|] == before;
    assert forall x :: x in before + [e] <==> x in before || x == e;
  }

  lemma UnionOne(a: set<Event>, b: set<Event>, e: Event)
    ensures (a + b) + {e} == a + (b + {e})
  {
  }

  lemma {:induction false} SpendTallies(p0: PitStop, record: PitStop, seen: set<Event>, events: seq<Event>, now: nat)
    requires Tallies(p0, record, seen)
    ensures Tallies(p0, Spend(record, events, now).record, seen + Requests(events, now))
    decreases |events|
  {
    if events == [] {
      assert seen + Requests(events, now) == seen;
    } else {
      hide *;
      var before, e := events[..|events|-1], events[|events|-1];
      assert events == before + [e];
      SpendTallies(p0, record, seen, before, now);
      SpendSnoc(record, before, e, now);
      SpendOneTallies(p0, Spend(record, before, now), seen + Requests(before, now), e, now);
      UnionOne(seen, Requests(before, now), e);
    }
  }

  // ---------- histories ----------

  function After(a: Account, history: seq<Report>): Account {
    if history == [] then a else RefreshStored(After(a, history[..|history|-1]), history[|history|-1].events, history[|history|-1].now)
  }

  /** A report of another day that asks for a refresh starts a record of its own. */
  ghost predicate Overwrites(r: Report, day: int) { DayOf(r.now) != day && Requests(r.events, r.now) != {} }

  /** The reports of `day` since its record was last started. */
  ghost function Since(history: seq<Report>, day: int): seq<Report> {
    if history == [] then [] else
      var h, r := history[..|history|-1], history[|history|-1];
      if DayOf(r.now) == day then Since(h, day) + [r] else if Overwrites(r, day) then [] else Since(h, day)
  }

  /** What the record started from: the account's own, unless another day has replaced it. */
  ghost function Opening(a: Account, history: seq<Report>, now: nat): PitStop {
    if exists r :: r in history && Overwrites(r, DayOf(now)) then PitStop(DayOf(now), 0, {}) else Today(a.pitStop, now)
  }

  ghost function AllRequests(history: seq<Report>): set<Event> {
    if history == [] then {} else AllRequests(history[..|history|-1]) + Requests(history[|history|-1].events, history[|history|-1].now)
  }

  lemma RequestsSnoc(h: seq<Report>, r: Report)
    ensures AllRequests(h + [r]) == AllRequests(h) + Requests(r.events, r.now)
  {
    assert (h + [r])[..|h|] == h;
  }

  lemma OpeningSnoc(a: Account, h: seq<Report>, r: Report, now: nat)
    ensures Opening(a, h + [r], now) == if Overwrites(r, DayOf(now)) then PitStop(DayOf(now), 0, {}) else Opening(a, h, now)
  {
    hide Overwrites;
    assert forall x :: x in h + [r] <==> x in h || x == r;
    if Overwrites(r, DayOf(now)) { assert r in h + [r]; }
  }

  lemma SinceSnoc(h: seq<Report>, r: Report, day: int)
    ensures Since(h + [r], day) == if DayOf(r.now) == day then Since(h, day) + [r] else if Overwrites(r, day) then [] else Since(h, day)
  {
    assert (h + [r])[..|h|] == h;
  }

  /** What one report does to the record of the day of `now`. */
  lemma StoredToday(a: Account, r: Report, now: nat)
    ensures var p := Today(RefreshStored(a, r.events, r.now).pitStop, now);
      && (DayOf(r.now) == DayOf(now) ==>
            || p == Spend(Today(a.pitStop, now), r.events, r.now).record
            || (Requests(r.events, r.now) == {} && p == Today(a.pitStop, now)))
      && (Overwrites(r, DayOf(now)) ==> p == PitStop(DayOf(now), 0, {}))
      && (DayOf(r.now) != DayOf(now) && !Overwrites(r, DayOf(now)) ==> p == Today(a.pitStop, now))
  {
    var record := Today(a.pitStop, r.now);
    SpendFrame(record, r.events, r.now);
    var valid := Spend(record, r.events, r.now).valid;
    assert valid <==> Requests(r.events, r.now) != {} by {
      if valid { var e :| e in r.events && Counts(e, r.now); assert e in Requests(r.events, r.now); }
      hide Counts;
    }
    hide Spend, Requests, DayOf, Counts;
  }

  lemma FreshTallies(p0: PitStop)
    ensures Tallies(p0, p0, {})
  {
    assert p0.receipts - p0.receipts == {} && p0.receipts + {} == p0.receipts;
  }

  lemma NothingAsked()
    ensures AllRequests([]) == {}
  {
  }

  lemma NoRequests(seen: set<Event>)
    ensures seen + {} == seen
  {
  }

  lemma {:induction false} HistoryTallies(a: Account, history: seq<Report>, now: nat)
    ensures Tallies(Opening(a, history, now), Today(After(a, history).pitStop, now), AllRequests(Since(history, DayOf(now))))
    decreases |history|
  {
    if history == [] { FreshTallies(Today(a.pitStop, now)); } else {
      var h, r := history[..|history|-1], history[|history|-1];
      assert history == h + [r];
      assert After(a, history) == RefreshStored(After(a, h), r.events, r.now);
      hide *;
      HistoryTallies(a, h, now);
      OpeningSnoc(a, h, r, now);
      SinceSnoc(h, r, DayOf(now));
      StoredToday(After(a, h), r, now);
      var p0, seen := Opening(a, h, now), AllRequests(Since(h, DayOf(now)));
      if DayOf(r.now) == DayOf(now) {
        OwnDay(r, DayOf(now));
        RequestsSnoc(Since(h, DayOf(now)), r);
        SpendTallies(p0, Today(After(a, h).pitStop, now), seen, r.events, r.now);
        NoRequests(seen);
      } else if Overwrites(r, DayOf(now)) {
        FreshTallies(PitStop(DayOf(now), 0, {}));
        NothingAsked();
      }
    }
  }

  lemma OwnDay(r: Report, day: int)
    requires DayOf(r.now) == day
    ensures !Overwrites(r, day)
  {
  }

  lemma TallyCount(p0: PitStop, p: PitStop, seen: set<Event>)
    requires Tallies(p0, p, seen)
    ensures Min(p.count, DAILY_LIMIT) == Min(p0.count + |seen - p0.receipts|, DAILY_LIMIT)
  {
    SubsetSize(p.receipts - p0.receipts, seen - p0.receipts);
    if p.count < DAILY_LIMIT { assert p.receipts - p0.receipts == seen - p0.receipts; }
  }

  /** Over every history, whatever the days of its reports and whatever record it starts from: the
      refreshes shown as spent are those of the opening record plus one for each distinct request
      made since that the record did not hold, at most two in all. */
  lemma RefreshCount(a: Account, history: seq<Report>, now: nat)
    ensures var p0 := Opening(a, history, now);
      Reported(After(a, history).pitStop, now) == Min(p0.count + |AllRequests(Since(history, DayOf(now))) - p0.receipts|, DAILY_LIMIT)
  {
    HistoryTallies(a, history, now);
    TallyCount(Opening(a, history, now), Today(After(a, history).pitStop, now), AllRequests(Since(history, DayOf(now))));
    hide After, Opening, Since, AllRequests, DayOf;
  }

  // ---------- days in order ----------

  ghost function OnDay(history: seq<Report>, day: int): seq<Report> {
    if history == [] then [] else
      var h, r := history[..|history|-1], history[|history|-1];
      OnDay(h, day) + if DayOf(r.now) == day then [r] else []
  }

  /** The clock never falls back to an earlier day. */
  ghost predicate DaysInOrder(a: Account, history: seq<Report>, now: nat) {
    && (forall i, j :: 0 <= i <= j < |history| ==> DayOf(history[i].now) <= DayOf(history[j].now) <= DayOf(now))
    && (a.pitStop.Some? ==> forall r :: r in history ==> a.pitStop.value.day <= DayOf(r.now))
  }

  lemma {:induction false} NoneOnDay(history: seq<Report>, day: int)
    requires forall r :: r in history ==> DayOf(r.now) != day
    ensures Since(history, day) == [] && OnDay(history, day) == []
  {
    if history != [] { NoneOnDay(history[..|history|-1], day); }
  }

  lemma {:induction false} SinceIsOnDay(a: Account, history: seq<Report>, now: nat)
    requires DaysInOrder(a, history, now)
    ensures Since(history, DayOf(now)) == OnDay(history, DayOf(now))
  {
    if history != [] {
      var h, r := history[..|history|-1], history[|history|-1];
      hide DayOf, Overwrites;
      if DayOf(r.now) == DayOf(now) { SinceIsOnDay(a, h, now); } else {
        forall x | x in history ensures DayOf(x.now) != DayOf(now) {
          var i :| 0 <= i < |history| && history[i] == x;
          assert DayOf(history[i].now) <= DayOf(history[|history|-1].now);
        }
        NoneOnDay(history, DayOf(now));
      }
    }
  }

  lemma OpeningInOrder(a: Account, history: seq<Report>, now: nat)
    requires DaysInOrder(a, history, now)
    ensures Opening(a, history, now) == Today(a.pitStop, now)
  {
    hide DayOf, Requests;
    if r :| r in history && Overwrites(r, DayOf(now)) {
      var i :| 0 <= i < |history| && history[i] == r;
      assert DayOf(history[i].now) <= DayOf(history[i].now) <= DayOf(now);
    }
  }

  /** When the clock never falls back to an earlier day, every request of today counts, and the
      record the account had today, if any, is where the count starts. */
  lemma TodaysCount(a: Account, history: seq<Report>, now: nat)
    requires DaysInOrder(a, history, now)
    ensures var p0 := Today(a.pitStop, now);
      Reported(After(a, history).pitStop, now) == Min(p0.count + |AllRequests(OnDay(history, DayOf(now))) - p0.receipts|, DAILY_LIMIT)
  {
    hide *;
    RefreshCount(a, history, now);
    SinceIsOnDay(a, history, now);
    OpeningInOrder(a, history, now);
  }
}
