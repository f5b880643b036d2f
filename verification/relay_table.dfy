/** Which relay port serves which pair of players (ctr_relay.go). */
module RelayPorts {

  import opened Common

  type Key = Bytes

  /** The ports the system would let the server open now. */
  type Sockets = s: set<int> | forall p :: p in s ==> 0 < p < 65536

  datatype Addr = Addr(ip: Bytes, port: nat)
  datatype Port = Refused | Given(port: int)

  datatype Pair = Pair(port: int, host: Addr, last: int)
  datatype Table = Table(pairs: map<Key, Pair>, low: int, high: int, next: int)

  /** Quiet time, in nanoseconds, after which a pair may be reaped. */
  const QUIET := 120_000_000_000

  // ---------- keys ----------

  function PairKey(host: nat, joiner: nat): Key {
    LittleEndian(host, 8) + LittleEndian(joiner, 8)
  }

  /** Two ordered pairs of accounts share a key only if they are the same pair. */
  lemma PairKeyInjective(h: nat, j: nat, h': nat, j': nat)
    requires h < Power256(8) && j < Power256(8) && h' < Power256(8) && j' < Power256(8)
    requires PairKey(h, j) == PairKey(h', j')
    ensures h == h' && j == j'
  {
    assert PairKey(h, j)[..8] == LittleEndian(h, 8) && PairKey(h, j)[8..] == LittleEndian(j, 8);
    assert PairKey(h', j')[..8] == LittleEndian(h', 8) && PairKey(h', j')[8..] == LittleEndian(j', 8);
    LittleEndianInjective(h, h', 8);
    LittleEndianInjective(j, j', 8);
  }

  // ---------- the table ----------

  predicate Busy(t: Table, port: int) { exists k :: k in t.pairs && t.pairs[k].port == port }

  /** The relay is enabled, every pair's port is in range, and no two pairs share one. */
  predicate Valid(t: Table) {
    && 0 < t.low <= t.next <= t.high
    && (forall k :: k in t.pairs ==> t.low <= t.pairs[k].port <= t.high && t.pairs[k].port < 65536)
    && (forall j, k :: j in t.pairs && k in t.pairs && t.pairs[j].port == t.pairs[k].port ==> j == k)
  }

  /** The port can be handed out: nobody has it and the system lets it be opened. */
  predicate Usable(t: Table, openable: Sockets, port: int) { !Busy(t, port) && port in openable }

  function After(t: Table): int { if t.next + 1 > t.high then t.low else t.next + 1 }

  function Ports(t: Table): int { t.high - t.low + 1 }

  function Search(t: Table, openable: Sockets, tries: nat): (Port, int)
    decreases tries
  {
    if tries == 0 then (Refused, t.next)
    else if Usable(t, openable, t.next) then (Given(t.next), After(t))
    else Search(t.(next := After(t)), openable, tries - 1)
  }

  function PairFor(t: Table, key: Key, host: Addr, now: int, openable: Sockets): (Table, Port)
    requires Valid(t)
  {
    if key in t.pairs then
      (t.(pairs := t.pairs[key := t.pairs[key].(host := host, last := now)]), Given(t.pairs[key].port))
    else
      var (found, next) := Search(t, openable, Ports(t));
      match found
      case Given(port) => (t.(pairs := t.pairs[key := Pair(port, host, now)], next := next), found)
      case Refused => (t.(next := next), found)
  }

  /** A packet passed through the pair's port. */
  function Heard(t: Table, key: Key, now: int): Table {
    if key in t.pairs then t.(pairs := t.pairs[key := t.pairs[key].(last := now)]) else t
  }

  function Reap(t: Table, now: int): Table {
    t.(pairs := map k | k in t.pairs && t.pairs[k].last > now - QUIET :: t.pairs[k])
  }

  // ---------- the search goes round once ----------

  /** How many tries it takes to come to `port`. */
  function Turn(t: Table, port: int): int {
    if port >= t.next then port - t.next else port - t.next + Ports(t)
  }

  predicate InRange(t: Table, port: int) { t.low <= port <= t.high }

  /** The search finds the first usable port in turn, and leaves `next` behind it. */
  lemma {:induction false} SearchFindsFirst(t: Table, openable: Sockets, tries: nat)
    requires t.low <= t.next <= t.high && tries <= Ports(t)
    ensures var (found, next) := Search(t, openable, tries);
      && t.low <= next <= t.high
      && (found.Given? ==>
        && InRange(t, found.port) && Usable(t, openable, found.port) && Turn(t, found.port) < tries
        && next == After(t.(next := found.port))
        && forall q :: InRange(t, q) && Turn(t, q) < Turn(t, found.port) ==> !Usable(t, openable, q))
      && (found.Refused? ==> forall q :: InRange(t, q) && Turn(t, q) < tries ==> !Usable(t, openable, q))
    decreases tries
  {
    if tries != 0 && !Usable(t, openable, t.next) {
      var u := t.(next := After(t));
      SearchFindsFirst(u, openable, tries - 1);
      forall q | InRange(t, q)
        ensures Usable(u, openable, q) == Usable(t, openable, q)
        ensures q != t.next ==> Turn(u, q) == Turn(t, q) - 1
        ensures q == t.next ==> Turn(u, q) == Ports(t) - 1
      {
        assert Busy(u, q) == Busy(t, q);
      }
    }
  }

  /** A search that finds nothing has gone round, and the next one starts where it did. */
  lemma {:induction false} SearchGoesRound(t: Table, openable: Sockets, tries: nat)
    requires t.low <= t.next <= t.high && tries <= Ports(t) && Search(t, openable, tries).0.Refused?
    ensures Search(t, openable, tries).1 == if t.next + tries <= t.high then t.next + tries else t.next + tries - Ports(t)
    decreases tries
  {
    if tries != 0 { SearchGoesRound(t.(next := After(t)), openable, tries - 1); }
  }

  /** A new pair is refused exactly when every port in the range is busy or cannot be opened. */
  lemma RefusedExactlyWhenFull(t: Table, key: Key, host: Addr, now: int, openable: Sockets)
    requires Valid(t)
    ensures PairFor(t, key, host, now, openable).1.Refused? <==>
      key !in t.pairs && forall q :: InRange(t, q) ==> !Usable(t, openable, q)
  {
    SearchFindsFirst(t, openable, Ports(t));
    assert forall q :: InRange(t, q) ==> Turn(t, q) < Ports(t);
  }

  /** A new pair's port is its own, openable, and the first such in turn; everyone else keeps theirs. */
  lemma GivenPort(t: Table, key: Key, host: Addr, now: int, openable: Sockets)
    requires Valid(t) && PairFor(t, key, host, now, openable).1.Given?
    ensures var (u, p) := PairFor(t, key, host, now, openable);
      && Valid(u)
      && u.pairs == t.pairs[key := Pair(p.port, host, now)]
      && (key in t.pairs ==> p.port == t.pairs[key].port && u.next == t.next)
      && (key !in t.pairs ==>
        && InRange(t, p.port) && Usable(t, openable, p.port) && !Usable(u, openable, p.port)
        && forall q :: InRange(t, q) && Turn(t, q) < Turn(t, p.port) ==> !Usable(t, openable, q))
  {
    SearchFindsFirst(t, openable, Ports(t));
    var (u, p) := PairFor(t, key, host, now, openable);
    assert key in u.pairs && u.pairs[key].port == p.port;
    if key !in t.pairs {
      forall k | k in t.pairs ensures t.pairs[k].port != p.port {
        assert !Busy(t, p.port);
      }
    }
  }

  // ---------- runs ----------

  datatype Action =
    | Ask(key: Key, host: Addr, now: int, openable: Sockets)
    | Packet(key: Key, now: int)
    | Sweep(now: int)

  function Step(t: Table, a: Action): Table
    requires Valid(t)
  {
    match a
    case Ask(key, host, now, openable) => PairFor(t, key, host, now, openable).0
    case Packet(key, now) => Heard(t, key, now)
    case Sweep(now) => Reap(t, now)
  }

  lemma StepKeepsValid(t: Table, a: Action)
    requires Valid(t)
    ensures Valid(Step(t, a)) && Step(t, a).low == t.low && Step(t, a).high == t.high
  {
    if a.Ask? {
      SearchFindsFirst(t, a.openable, Ports(t));
      if PairFor(t, a.key, a.host, a.now, a.openable).1.Given? {
        GivenPort(t, a.key, a.host, a.now, a.openable);
      }
    }
  }

  /** The table after a run; `Valid` comes along so that every step may be taken. */
  function Run(t: Table, run: seq<Action>): (u: Table)
    requires Valid(t)
    ensures Valid(u)
    decreases |run|
  {
    if run == [] then t else StepKeepsValid(t, run[0]); Run(Step(t, run[0]), run[1..])
  }

  /** Every sweep of the run finds the pair asked for or heard from within the quiet time. */
  predicate Alive(last: int, key: Key, run: seq<Action>)
    decreases |run|
  {
    run == [] ||
    match run[0]
    case Ask(k, _, now, _) => Alive(if k == key then now else last, key, run[1..])
    case Packet(k, now) => Alive(if k == key then now else last, key, run[1..])
    case Sweep(now) => last > now - QUIET && Alive(last, key, run[1..])
  }

  /** Over any run in which no sweep finds it quiet, a known pair keeps its port, and nobody
      else is given that port. */
  lemma {:induction false} KnownPairKeepsPort(t: Table, key: Key, run: seq<Action>)
    requires Valid(t) && key in t.pairs && Alive(t.pairs[key].last, key, run)
    ensures key in Run(t, run).pairs && Run(t, run).pairs[key].port == t.pairs[key].port
    ensures forall k :: k in Run(t, run).pairs && Run(t, run).pairs[k].port == t.pairs[key].port ==> k == key
    decreases |run|
  {
    if run != [] {
      var a := run[0];
      StepKeepsValid(t, a);
      if a.Ask? && PairFor(t, a.key, a.host, a.now, a.openable).1.Given? {
        GivenPort(t, a.key, a.host, a.now, a.openable);
      }
      KnownPairKeepsPort(Step(t, a), key, run[1..]);
    }
  }

  /** A sweep frees the port of every pair that was quiet too long, for anyone to be given. */
  lemma SweptPortIsFree(t: Table, key: Key, now: int)
    requires Valid(t) && key in t.pairs
    ensures Busy(Reap(t, now), t.pairs[key].port) <==> t.pairs[key].last > now - 120_000_000_000
  {
    var u := Reap(t, now);
    if t.pairs[key].last > now - QUIET { assert u.pairs[key].port == t.pairs[key].port; }
  }
}
