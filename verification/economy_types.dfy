/** The values of the CTR economy: reported events, the catalogue, and one account. */
module EconomyTypes {
  import opened Common

  const SECOND: nat := 1_000_000_000

  /** A reported event. Its receipt is a hash of its canonical encoding, taken as injective,
      so the event stands for its own receipt. */
  datatype Event = Event(name: string, timestamp: nat, id: nat, values: map<string, nat>)
  {
    /** A missing value reads as zero. */
    function Val(key: string): nat { if key in values then values[key] else 0 }
  }

  /** Events as they were reported, and when. */
  datatype Report = Report(events: seq<Event>, now: nat)

  /** Times are nanoseconds since 1970; reports carry whole seconds. */
  function Unix(now: nat): nat { now / SECOND }

  /** The five-minute allowance for clocks that run ahead. */
  predicate NotFuture(timestamp: nat, now: nat) { timestamp <= (now + 300 * SECOND) / SECOND }

  // ---------- catalogue ----------

  datatype Period = Period(start: int, end: int, target: nat, x: real, y: real, filters: map<string, set<nat>>)
  datatype Rule = Rule(name: string, reward: int, periods: seq<Period>)
  datatype Schedule = Schedule(cycleStart: int, cycleSeconds: int, rules: seq<Rule>)
  datatype Sku = Sku(items: seq<nat>, parts: seq<nat>, price: int)

  // ---------- account ----------

  datatype RaceBook = RaceBook(receipts: set<Event>, online: map<int, nat>)
  datatype PitStop = PitStop(day: int, count: nat, receipts: set<Event>)

  /** `receipts` counts, event by event, how many occurrences have been credited. */
  datatype Completion = Completion(completed: nat, progress: nat, receipts: multiset<Event>, distinct: set<nat>)
  const UNSTARTED := Completion(0, 0, multiset{}, {})

  datatype Key = Key(name: string, start: int)

  datatype Account = Account(
    coins: int, items: set<nat>, races: RaceBook, pitStop: Option<PitStop>, challenges: map<Key, Completion>)

  // ---------- arithmetic ----------

  /** Go's integer division truncates toward zero. */
  function Quo(a: int, b: int): int
    requires b > 0
  {
    if a >= 0 then a / b else -((-a) / b)
  }

  function Sub64(a: nat, b: nat): nat { (a - b) % U64 }
  function Add64(a: nat, b: nat): nat { (a + b) % U64 }
}
