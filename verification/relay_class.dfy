/** The relay table as the server keeps it: two indexes over the same pairs, changed in place
    (ctr_relay.go). Every method is proved equal to its function on the abstract table. */
module Relay {
  import opened Common
  import opened RelayPorts
  import opened RelaySlots

  function Visited(pairs: map<Key, Pair>, key: Key, now: int): map<Key, Pair>
    requires key in pairs
  {
    if pairs[key].last > now - QUIET then pairs else pairs - {key}
  }

  /** What a sweep has kept while the pairs in `left` are still to be looked at. */
  predicate Kept(was: map<Key, Pair>, pairs: map<Key, Pair>, left: set<Key>, now: int) {
    pairs == map k | k in was && (k in left || was[k].last > now - QUIET) :: was[k]
  }

  lemma KeptFirst(was: map<Key, Pair>, now: int)
    ensures Kept(was, was, was.Keys, now)
  {
  }

  lemma KeptStep(was: map<Key, Pair>, pairs: map<Key, Pair>, left: set<Key>, key: Key, now: int)
    requires Kept(was, pairs, left, now) && key in left && left <= pairs.Keys
    ensures Kept(was, Visited(pairs, key, now), left - {key}, now)
    ensures left - {key} <= Visited(pairs, key, now).Keys
  {
  }

  lemma KeptAll(was: Table, pairs: map<Key, Pair>, now: int)
    requires Kept(was.pairs, pairs, {}, now)
    ensures was.(pairs := pairs) == Reap(was, now)
  {
  }

  lemma StillListed<K, V>(m: map<K, V>, key: K, v: V)
    requires key !in m
    ensures m[key := v].Values == m.Values + {v}
  {
    var u := m[key := v];
    forall x | x in m.Values ensures x in u.Values {
      var k :| k in m && m[k] == x;
      assert k in u && u[k] == x;
    }
    assert u[key] == v;
  }

  lemma EnteredValid(t: Table, key: Key, p: Pair)
    requires RelayPorts.Valid(t) && key !in t.pairs && t.low <= p.port <= t.high && p.port < 65536 && !Busy(t, p.port)
    ensures RelayPorts.Valid(t.(pairs := t.pairs[key := p]))
  {
    assert forall k :: k in t.pairs ==> t.pairs[k].port != p.port;
  }

  class RelayPair {
    const port: int
    var host: Addr
    var last: int
    var open: bool

    constructor (port: int, host: Addr, now: int)
      ensures this.port == port && this.host == host && last == now && open
    {
      this.port, this.host, last, open := port, host, now, true;
    }
  }

  class RelayTable {
    var pairs: map<Key, RelayPair>
    var byPort: map<int, RelayPair>
    var next: int
    const low: int
    const high: int
    const ip: Bytes

    constructor (low: int, high: int, ip: Bytes)
      requires 0 < low <= high && |ip| == 4
      ensures Valid() && Abs() == Table(map[], low, high, low) && this.ip == ip
    {
      pairs, byPort, next := map[], map[], low;
      this.low, this.high, this.ip := low, high, ip;
    }

    ghost function Abs(): Table
      reads this, pairs.Values
    {
      Table(map k | k in pairs :: Pair(pairs[k].port, pairs[k].host, pairs[k].last), low, high, next)
    }

    /** The two indexes describe the same pairs, and exactly those hold an open socket. */
    ghost predicate Indexed()
      reads this, pairs.Values
    {
      && (forall k :: k in pairs ==> pairs[k].port in byPort && byPort[pairs[k].port] == pairs[k] && pairs[k].open)
      && (forall p :: p in byPort ==> byPort[p] in pairs.Values && byPort[p].port == p)
    }

    ghost predicate Valid()
      reads this, pairs.Values
    {
      Indexed() && RelayPorts.Valid(Abs()) && |ip| == 4
    }

    /** The port index answers whether a port is taken. */
    lemma BusyByPort(port: int)
      requires Indexed()
      ensures port in byPort <==> Busy(Abs(), port)
    {
      if port in byPort {
        var k :| k in pairs && pairs[k] == byPort[port];
        assert k in Abs().pairs && Abs().pairs[k].port == port;
      }
    }

    /** Different keys have different pair objects. */
    lemma Apart(j: Key, k: Key)
      requires Valid() && j in pairs && k in pairs && j != k
      ensures pairs[j] != pairs[k] && pairs[j].port != pairs[k].port
    {
      assert Abs().pairs[j].port == pairs[j].port && Abs().pairs[k].port == pairs[k].port;
    }

    lemma AllApart(key: Key)
      requires Valid() && key in pairs
      ensures forall k :: k in pairs && k != key ==> pairs[k] != pairs[key] && pairs[k].port != pairs[key].port
    {
      forall k | k in pairs && k != key ensures pairs[k] != pairs[key] && pairs[k].port != pairs[key].port {
        Apart(k, key);
      }
    }

    /** The allocation loop: at most one turn round the range, starting at `next`. */
    method FindPort(openable: Sockets) returns (found: Port)
      requires Valid()
      modifies this`next
      ensures (found, next) == Search(old(Abs()), openable, Ports(old(Abs())))
      ensures Abs() == old(Abs()).(next := next)
      ensures found.Given? ==> low <= found.port <= high && found.port in openable && found.port !in byPort
      ensures low <= next <= high
    {
      ghost var was := Abs();
      var tries := 0;
      while tries <= high - low
        invariant 0 <= tries <= Ports(was) && low <= next <= high
        invariant Abs() == was.(next := next)
        invariant Search(was, openable, Ports(was)) == Search(was.(next := next), openable, Ports(was) - tries)
      {
        var port := next;
        BusyByPort(port);
        next := next + 1;
        if next > high { next := low; }
        if port !in byPort && port in openable { return Given(port); }
        tries := tries + 1;
      }
      found := Refused;
    }

    /** Opens the socket and enters the pair in both indexes. */
    method Open(key: Key, port: int, host: Addr, now: int) returns (p: RelayPair)
      requires Valid() && key !in pairs && port !in byPort && low <= port <= high && port < 65536
      modifies this`pairs, this`byPort
      ensures Valid() && fresh(p) && p.port == port
      ensures pairs == old(pairs)[key := p] && byPort == old(byPort)[port := p]
      ensures Abs() == old(Abs()).(pairs := old(Abs()).pairs[key := Pair(port, host, now)])
    {
      ghost var was := Abs();
      AbsKeys();
      BusyByPort(port);
      hide RelayPorts.Valid, Busy, Indexed, Abs;
      p := new RelayPair(port, host, now);
      pairs, byPort := pairs[key := p], byPort[port := p];
      EnteredIndexed(key, p);
      EnteredAbs(key, p);
      EnteredValid(was, key, Pair(port, host, now));
    }

    twostate lemma EnteredIndexed(key: Key, new p: RelayPair)
      requires old(Indexed()) && key !in old(pairs) && p.port !in old(byPort) && p.open
      requires pairs == old(pairs)[key := p] && byPort == old(byPort)[p.port := p]
      requires forall k :: k in old(pairs) ==> unchanged(old(pairs)[k])
      ensures Indexed()
    {
      StillListed(old(pairs), key, p);
    }

    twostate lemma EnteredAbs(key: Key, new p: RelayPair)
      requires key !in old(pairs) && pairs == old(pairs)[key := p] && next == old(next)
      requires forall k :: k in old(pairs) ==> unchanged(old(pairs)[k])
      ensures Abs() == old(Abs()).(pairs := old(Abs()).pairs[key := Pair(p.port, p.host, p.last)])
    {
      assert Abs().pairs == old(Abs()).pairs[key := Pair(p.port, p.host, p.last)];
    }

    /** The pair for these two players; a new one opens the first usable port in turn. */
    method PairFor(key: Key, host: Addr, now: int, openable: Sockets) returns (p: RelayPair?)
      requires Valid()
      modifies this, pairs.Values
      ensures Valid() && Abs() == RelayPorts.PairFor(old(Abs()), key, host, now, openable).0
      ensures p == null <==> RelayPorts.PairFor(old(Abs()), key, host, now, openable).1.Refused?
      ensures p != null ==> key in pairs && p == pairs[key]
      ensures p != null ==> Given(p.port) == RelayPorts.PairFor(old(Abs()), key, host, now, openable).1
      ensures key in old(pairs) ==> pairs == old(pairs)
      ensures key !in old(pairs) ==> pairs == if p == null then old(pairs) else old(pairs)[key := p]
      ensures key !in old(pairs) && p != null ==> fresh(p)
    {
      if key in pairs {
        p := Touch(key, host, now);
      } else {
        var found := FindPort(openable);
        p := null;
        if found.Given? { p := Open(key, found.port, host, now); }
      }
    }

    /** A known pair: the host's address and the time are brought up to date. */
    method Touch(key: Key, host: Addr, now: int) returns (p: RelayPair)
      requires Valid() && key in pairs
      modifies pairs[key]
      ensures Valid() && p == pairs[key] && p.port == old(Abs()).pairs[key].port
      ensures Abs() == old(Abs()).(pairs := old(Abs()).pairs[key := old(Abs()).pairs[key].(host := host, last := now)])
    {
      ghost var was := Abs();
      AllApart(key);
      p := pairs[key];
      p.host, p.last := host, now;
      assert Abs().pairs == was.pairs[key := was.pairs[key].(host := host, last := now)];
    }

    /** A packet on a pair's port keeps the pair from being reaped. */
    method Heard(key: Key, now: int)
      requires Valid()
      modifies pairs.Values
      ensures Valid() && Abs() == RelayPorts.Heard(old(Abs()), key, now)
    {
      if key in pairs {
        var p := Touch(key, pairs[key].host, now);
      }
    }

    /** Closes the pair's socket and takes it out of both indexes. */
    method Drop(key: Key)
      requires Valid() && key in pairs
      modifies this`pairs, this`byPort, pairs[key]
      ensures Valid() && pairs == old(pairs) - {key} && !old(pairs[key]).open
      ensures Abs() == old(Abs()).(pairs := old(Abs()).pairs - {key})
    {
      ghost var was := Abs();
      AllApart(key);
      var p := pairs[key];
      p.open := false;
      pairs, byPort := pairs - {key}, byPort - {p.port};
      assert Abs().pairs == was.pairs - {key};
      forall q | q in byPort ensures byPort[q] in pairs.Values {
        var k :| k in old(pairs) && old(pairs)[k] == byPort[q];
        assert k != key && k in pairs && pairs[k] == byPort[q];
      }
    }

    /** The sockets of `all` are open exactly for the pairs still in the table. */
    ghost predicate OpenExactly(all: map<Key, RelayPair>)
      reads this, all.Values
    {
      && (forall k :: k in pairs ==> k in all && pairs[k] == all[k])
      && (forall j, k :: j in all && k in all && all[j] == all[k] ==> j == k)
      && (forall k :: k in all ==> all[k].open == (k in pairs))
    }

    method Visit(key: Key, now: int, ghost all: map<Key, RelayPair>)
      requires Valid() && key in pairs && OpenExactly(all)
      modifies this`pairs, this`byPort, pairs[key]
      ensures Valid() && OpenExactly(all)
      ensures Abs() == old(Abs()).(pairs := Visited(old(Abs()).pairs, key, now))
    {
      AbsKeys();
      if !(pairs[key].last > now - QUIET) { Drop(key); }
    }

    /** Close the pairs that have gone quiet. Their sockets, and no others, are closed. */
    method Reap(now: int)
      requires Valid()
      modifies this, pairs.Values
      ensures Valid() && Abs() == RelayPorts.Reap(old(Abs()), now)
      ensures OpenExactly(old(pairs))
    {
      hide *;
      ghost var was := Abs();
      ghost var all := pairs;
      var left := pairs.Keys;
      AbsKeys();
      AllOpen();
      KeptFirst(was.pairs, now);
      while left != {}
        invariant forall k :: k in pairs ==> k in all && pairs[k] == all[k]
        invariant Valid() && OpenExactly(all) && left <= pairs.Keys == Abs().pairs.Keys
        invariant Abs() == was.(pairs := Abs().pairs) && Kept(was.pairs, Abs().pairs, left, now)
        decreases |left|
      {
        var key :| key in left;
        KeptStep(was.pairs, Abs().pairs, left, key, now);
        left := left - {key};
        Visit(key, now, all);
        AbsKeys();
        StillThere(all);
      }
      KeptAll(was, Abs().pairs, now);
    }

    lemma StillThere(all: map<Key, RelayPair>)
      requires OpenExactly(all)
      ensures forall k :: k in pairs ==> k in all && pairs[k] == all[k]
    {
    }

    lemma PortPositive(key: Key)
      requires Valid() && key in pairs
      ensures pairs[key].port > 0
    {
      assert key in Abs().pairs && Abs().pairs[key].port == pairs[key].port;
    }

    lemma AbsKeys()
      ensures Abs().pairs.Keys == pairs.Keys
      ensures forall k :: k in pairs ==> Abs().pairs[k].last == pairs[k].last
    {
    }

    lemma AllOpen()
      requires Valid()
      ensures OpenExactly(pairs)
    {
      forall j, k | j in pairs && k in pairs && pairs[j] == pairs[k] ensures j == k {
        if j != k { Apart(j, k); }
      }
    }

    /** The joiner's copy of what the host advertised. */
    method WithRelay(hostAddr: Bytes, host: nat, joiner: nat, allowed: bool, now: int, openable: Sockets)
      returns (out: Bytes)
      requires Valid()
      modifies this, pairs.Values
      ensures Valid()
      ensures (Abs(), out) == RelaySlots.WithRelay(old(Abs()), ip, hostAddr, host, joiner, allowed, now, openable)
    {
      hide RelayPorts.Valid, Abs, Indexed, Offered, RelayPorts.PairFor, PairKey;
      ghost var was := Abs();
      if |hostAddr| < BLOB || host == 0 || joiner == 0 || host == joiner || !allowed {
        return hostAddr;
      }
      var dst := ParseAddrSlot(hostAddr[60..66]);
      if dst.None? { return hostAddr; }
      var p := PairFor(PairKey(host, joiner), dst.value, now, openable);
      if p == null { return hostAddr; }
      PortPositive(PairKey(host, joiner));
      out := Offer(hostAddr, Addr(ip, p.port));
    }
  }

  /** The loop over the relay slots. */
  method Offer(hostAddr: Bytes, a: Addr) returns (out: Bytes)
    requires |hostAddr| >= BLOB && |a.ip| == 4
    ensures out == Offered(hostAddr, a)
  {
    hide ParseAddrSlot, AddrSlot, Put;
    var slot := FIRST;
    while slot <= LAST && ParseAddrSlot(hostAddr[slot * SLOT..slot * SLOT + SLOT]).Some?
      invariant FIRST <= slot <= LAST + 1
      invariant FreeSlot(hostAddr, FIRST) == FreeSlot(hostAddr, slot)
    {
      slot := slot + 1;
    }
    out := hostAddr;
    if slot <= LAST {
      out := WriteAddrSlot(hostAddr, slot, a);
    }
  }

  /** Copies the blob and writes the address over one slot of the copy, byte by byte. */
  method WriteAddrSlot(b: Bytes, slot: nat, a: Addr) returns (out: Bytes)
    requires |b| >= BLOB && slot <= LAST + 1 && |a.ip| == 4
    ensures out == Put(b, slot, AddrSlot(a))
  {
    hide Put;
    var buf := new Byte[|b|](i requires 0 <= i < |b| => b[i]);
    var off := slot * SLOT;
    buf[off], buf[off+1], buf[off+2], buf[off+3] := a.ip[0], a.ip[1], a.ip[2], a.ip[3];
    buf[off+4], buf[off+5] := a.port % 256, a.port / 256 % 256;
    out := buf[..];
    PutByByte(b, slot, AddrSlot(a), out);
  }

  lemma PutByByte(b: Bytes, slot: nat, s: Bytes, out: Bytes)
    requires |out| == |b| >= BLOB && slot <= LAST + 1 && |s| == SLOT
    requires forall i :: 0 <= i < |b| ==> out[i] == if slot * SLOT <= i < slot * SLOT + SLOT then s[i - slot * SLOT] else b[i]
    ensures out == Put(b, slot, s)
  {
  }
}
