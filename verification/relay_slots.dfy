/** The address blob a host advertises and the relay slot a joiner is offered (ctr_relay.go). */
module RelaySlots {
  import opened Common
  import opened RelayPorts

  const SLOT := 6
  const FIRST := 1
  const LAST := 9
  const BLOB := 67

  /** What an unused slot holds. */
  const EMPTY: Bytes := [0, 255, 0, 255]

  function Word(low: nat, high: nat): nat { low + 256 * high }

  function ParseAddrSlot(b: Bytes): Option<Addr> {
    if |b| < SLOT || b[..4] == EMPTY || Word(b[4], b[5]) == 0 then None
    else Some(Addr(b[..4], Word(b[4], b[5])))
  }

  /** The six bytes that `writeAddrSlot` leaves: a port too wide loses its high bits. */
  function AddrSlot(a: Addr): (r: Bytes)
    requires |a.ip| == 4
    ensures |r| == SLOT
  {
    a.ip + [a.port % 256, a.port / 256 % 256]
  }

  /** A slot reads back exactly when its port fits and is not 0 and its address is not the empty mark. */
  lemma SlotRoundTrip(a: Addr)
    requires |a.ip| == 4
    ensures ParseAddrSlot(AddrSlot(a)) == Some(a) <==> 0 < a.port < 65536 && a.ip != EMPTY
  {
    var b := AddrSlot(a);
    assert b[..4] == a.ip && b[4] == a.port % 256 && b[5] == a.port / 256 % 256;
  }

  function Slot(b: Bytes, k: nat): Bytes
    requires |b| >= BLOB && k <= LAST + 1
  {
    b[k * SLOT..k * SLOT + SLOT]
  }

  predicate Taken(b: Bytes, k: nat)
    requires |b| >= BLOB && k <= LAST + 1
  {
    ParseAddrSlot(Slot(b, k)).Some?
  }

  /** The first free relay slot from `k` on; past the last when there is none. */
  function FreeSlot(b: Bytes, k: nat): (r: nat)
    requires |b| >= BLOB && FIRST <= k <= LAST + 1
    ensures k <= r <= LAST + 1
    ensures forall j :: k <= j < r ==> Taken(b, j)
    ensures r <= LAST ==> !Taken(b, r)
    decreases LAST + 1 - k
  {
    if k > LAST || !Taken(b, k) then k else FreeSlot(b, k + 1)
  }

  function Put(b: Bytes, k: nat, slot: Bytes): (c: Bytes)
    requires |b| >= BLOB && k <= LAST + 1 && |slot| == SLOT
    ensures |c| == |b|
  {
    b[..k * SLOT] + slot + b[k * SLOT + SLOT..]
  }

  lemma PutFillsOneSlot(b: Bytes, k: nat, slot: Bytes)
    requires |b| >= BLOB && k <= LAST + 1 && |slot| == SLOT
    ensures Slot(Put(b, k, slot), k) == slot
    ensures forall i :: 0 <= i < |b| && !(k * SLOT <= i < k * SLOT + SLOT) ==> Put(b, k, slot)[i] == b[i]
  {
  }

  lemma SameSlot(b: Bytes, c: Bytes, k: nat, j: nat)
    requires |c| == |b| >= BLOB && k <= LAST + 1 && j <= LAST + 1 && j != k
    requires forall i :: 0 <= i < |b| && !(k * SLOT <= i < k * SLOT + SLOT) ==> c[i] == b[i]
    ensures Slot(c, j) == Slot(b, j)
  {
    forall i | 0 <= i < SLOT ensures Slot(c, j)[i] == Slot(b, j)[i] {
      assert c[j * SLOT + i] == b[j * SLOT + i];
    }
  }

  function Offered(b: Bytes, a: Addr): Bytes
    requires |b| >= BLOB && |a.ip| == 4
  {
    var k := FreeSlot(b, FIRST);
    if k > LAST then b else Put(b, k, AddrSlot(a))
  }

  /** What an offer changes: the first free relay slot, which now reads the address, and nothing else. */
  lemma OfferFillsOneSlot(b: Bytes, a: Addr)
    requires |b| >= BLOB && |a.ip| == 4 && 0 < a.port < 65536 && a.ip != EMPTY
    ensures var (c, k) := (Offered(b, a), FreeSlot(b, FIRST));
      && |c| == |b|
      && (forall i :: 0 <= i < |b| && !(k * SLOT <= i < k * SLOT + SLOT) ==> c[i] == b[i])
      && (k <= LAST ==> ParseAddrSlot(Slot(c, k)) == Some(a))
      && (c == b <==> forall j :: FIRST <= j <= LAST ==> Taken(b, j))
  {
    hide ParseAddrSlot, AddrSlot, Put, Slot;
    var k := FreeSlot(b, FIRST);
    if k <= LAST {
      SlotRoundTrip(a);
      PutFillsOneSlot(b, k, AddrSlot(a));
      assert !Taken(b, k);
    }
  }

  /** Offers fill the slots in order: a second one goes to a later slot and keeps the first. */
  lemma OffersGoOn(b: Bytes, a: Addr, a': Addr)
    requires |b| >= BLOB && |a.ip| == 4 && 0 < a.port < 65536 && a.ip != EMPTY
    requires |a'.ip| == 4 && 0 < a'.port < 65536 && a'.ip != EMPTY && FreeSlot(b, FIRST) <= LAST
    ensures FreeSlot(Offered(b, a), FIRST) > FreeSlot(b, FIRST)
    ensures ParseAddrSlot(Slot(Offered(Offered(b, a), a'), FreeSlot(b, FIRST))) == Some(a)
  {
    hide ParseAddrSlot, AddrSlot, Put, Slot, Offered;
    OfferFillsOneSlot(b, a);
    OfferFillsOneSlot(Offered(b, a), a');
    var (c, k) := (Offered(b, a), FreeSlot(b, FIRST));
    forall j | FIRST <= j <= k ensures Taken(c, j) {
      if j < k { SameSlot(b, c, k, j); assert Taken(b, j); }
    }
    SameSlot(c, Offered(c, a'), FreeSlot(c, FIRST), k);
  }

  // ---------- the whole request ----------

  /** Whether a joiner is to be given a relay address at all. `allowed` is the account list. */
  predicate Eligible(b: Bytes, host: nat, joiner: nat, allowed: bool) {
    && |b| >= BLOB && host != 0 && joiner != 0 && host != joiner && allowed
    && ParseAddrSlot(b[60..66]).Some?
  }

  function WithRelay(t: Table, ip: Bytes, b: Bytes, host: nat, joiner: nat, allowed: bool, now: int, openable: Sockets)
    : (Table, Bytes)
    requires Valid(t) && |ip| == 4
  {
    if !Eligible(b, host, joiner, allowed) then (t, b)
    else
      var (u, found) := PairFor(t, PairKey(host, joiner), ParseAddrSlot(b[60..66]).value, now, openable);
      (u, if found.Given? && found.port >= 0 then Offered(b, Addr(ip, found.port)) else b)
  }

  /** A joiner's copy differs from what the host advertised only by one relay slot, which holds
      the port of exactly this pair; it stays as it was exactly when the joiner is not eligible,
      no port could be had, or every slot was full. */
  lemma OnlyTheRelaySlot(t: Table, ip: Bytes, b: Bytes, host: nat, joiner: nat, allowed: bool, now: int, openable: Sockets)
    requires Valid(t) && |ip| == 4 && ip != EMPTY
    ensures var (u, c) := WithRelay(t, ip, b, host, joiner, allowed, now, openable);
      var key := PairKey(host, joiner);
      && Valid(u) && |c| == |b|
      && (c == b <==>
        || !Eligible(b, host, joiner, allowed)
        || (key !in t.pairs && forall q :: InRange(t, q) ==> !Usable(t, openable, q))
        || (forall j :: FIRST <= j <= LAST ==> Taken(b, j)))
      && (c != b ==>
        && key in u.pairs
        && u.pairs[key].host == ParseAddrSlot(b[60..66]).value && u.pairs[key].last == now
        && ParseAddrSlot(Slot(c, FreeSlot(b, FIRST))) == Some(Addr(ip, u.pairs[key].port))
        && Slot(c, 0) == Slot(b, 0) && c[60..] == b[60..])
  {
    hide ParseAddrSlot, AddrSlot, Put, Slot, Offered, PairFor, PairKey, Busy, Usable, InRange;
    if Eligible(b, host, joiner, allowed) {
      var key := PairKey(host, joiner);
      var dst := ParseAddrSlot(b[60..66]).value;
      var (u, found) := PairFor(t, key, dst, now, openable);
      RefusedExactlyWhenFull(t, key, dst, now, openable);
      StepKeepsValid(t, Ask(key, dst, now, openable));
      if found.Given? {
        GivenPort(t, key, dst, now, openable);
        assert u.pairs[key].port == found.port;
        var a := Addr(ip, found.port);
        OfferFillsOneSlot(b, a);
        var (c, k) := (Offered(b, a), FreeSlot(b, FIRST));
        if c != b {
          SameSlot(b, c, k, 0);
          assert c[60..] == b[60..];
        }
      }
    }
  }

  // ---------- the request told from bytes and ports ----------

  /** No address at `o`: the empty mark, or port 0. */
  predicate Vacant(b: Bytes, o: nat)
    requires o + 6 <= |b|
  {
    (b[o] == 0 && b[o+1] == 255 && b[o+2] == 0 && b[o+3] == 255) || (b[o+4] == 0 && b[o+5] == 0)
  }

  /** Who is given a relay address: a joiner who is allowed one, for another account's game that gives a
      whole blob with a public address in it. */
  predicate Served(b: Bytes, host: nat, joiner: nat, allowed: bool) {
    |b| >= 67 && host != 0 && joiner != 0 && host != joiner && allowed && !Vacant(b, 60)
  }

  /** The public address in the blob. */
  function Destination(b: Bytes): Addr
    requires |b| >= 67
  {
    Addr(b[60..64], b[64] as int + 256 * (b[65] as int))
  }

  lemma ParseIs(b: Bytes, o: nat)
    requires o + 6 <= |b|
    ensures ParseAddrSlot(b[o..o+6]) == if Vacant(b, o) then None else Some(Addr(b[o..o+4], b[o+4] as int + 256 * (b[o+5] as int)))
  {
    var slot := b[o..o+6];
    assert slot[..4] == b[o..o+4];
    assert slot[..4] == EMPTY <==> b[o] == 0 && b[o+1] == 255 && b[o+2] == 0 && b[o+3] == 255;
  }

  /** Nobody else has the port and the system lets it be opened. */
  predicate Spare(t: Table, openable: Sockets, port: int) {
    t.low <= port <= t.high && port in openable && forall k :: k in t.pairs ==> t.pairs[k].port != port
  }

  lemma SpareIs(t: Table, openable: Sockets, port: int)
    ensures Spare(t, openable, port) <==> InRange(t, port) && Usable(t, openable, port)
  {
  }

  /** What a request does to the table. A joiner who is not served changes nothing; a pair that is known
      keeps its port and has the host's address and the time brought up to date; a new pair is entered
      with a spare port if there is one, and the search for the next one starts behind that port. */
  lemma TableAfter(t: Table, ip: Bytes, b: Bytes, host: nat, joiner: nat, allowed: bool, now: int, openable: Sockets)
    requires Valid(t) && |ip| == 4
    ensures var (u, c) := WithRelay(t, ip, b, host, joiner, allowed, now, openable);
      var key := LittleEndian(host, 8) + LittleEndian(joiner, 8);
      && (!Served(b, host, joiner, allowed) ==> u == t && c == b)
      && (Served(b, host, joiner, allowed) && key in t.pairs ==>
        u == t.(pairs := t.pairs[key := Pair(t.pairs[key].port, Destination(b), now)]))
      && (Served(b, host, joiner, allowed) && key !in t.pairs && (exists q :: Spare(t, openable, q)) ==>
        exists q :: Spare(t, openable, q)
          && u == t.(pairs := t.pairs[key := Pair(q, Destination(b), now)], next := if q == t.high then t.low else q + 1))
      && (Served(b, host, joiner, allowed) && key !in t.pairs && (forall q :: !Spare(t, openable, q)) ==> u == t && c == b)
  {
    EligibleIs(b, host, joiner, allowed);
    if Served(b, host, joiner, allowed) {
      var key := PairKey(host, joiner);
      var (u, found) := PairFor(t, key, Destination(b), now, openable);
      RefusedExactlyWhenFull(t, key, Destination(b), now, openable);
      forall q ensures Spare(t, openable, q) <==> InRange(t, q) && Usable(t, openable, q) { SpareIs(t, openable, q); }
      if found.Given? { GivenPort(t, key, Destination(b), now, openable); }
      if key !in t.pairs { NextIs(t, key, Destination(b), now, openable); }
      hide Usable, InRange, Spare, Served, Destination, Offered, Valid, Turn, Eligible;
      if key !in t.pairs && found.Given? { assert Spare(t, openable, found.port); }
    }
  }

  lemma NextIs(t: Table, key: Key, dst: Addr, now: int, openable: Sockets)
    requires Valid(t) && key !in t.pairs
    ensures var (u, found) := PairFor(t, key, dst, now, openable);
      && u.low == t.low && u.high == t.high
      && u.next == if found.Refused? then t.next else if found.port == t.high then t.low else found.port + 1
  {
    SearchFindsFirst(t, openable, Ports(t));
    if Search(t, openable, Ports(t)).0.Refused? { SearchGoesRound(t, openable, Ports(t)); }
    hide Search, Usable, Turn;
  }

  lemma EligibleIs(b: Bytes, host: nat, joiner: nat, allowed: bool)
    ensures Eligible(b, host, joiner, allowed) <==> Served(b, host, joiner, allowed)
    ensures Served(b, host, joiner, allowed) ==> ParseAddrSlot(b[60..66]) == Some(Destination(b))
  {
    if |b| >= 67 { ParseIs(b, 60); }
  }

  /** `c` is `b` but for slot `k`, which holds the address, low byte of the port first. */
  predicate HoldsAt(b: Bytes, c: Bytes, k: nat, ip: Bytes, port: int)
    requires |b| >= 67 && k <= 9
  {
    && |c| == |b| && c[6*k..6*k+4] == ip && c[6*k+4] as int + 256 * (c[6*k+5] as int) == port
    && forall i :: 0 <= i < |b| && !(6 * k <= i < 6 * k + 6) ==> c[i] == b[i]
  }

  /** What the joiner is given: the pair's port and the relay's address in the first of the slots 1 to 9
      that holds no address, and every other byte as the host sent it. With no such slot the copy is the
      host's blob. */
  lemma CopyIs(t: Table, ip: Bytes, b: Bytes, host: nat, joiner: nat, allowed: bool, now: int, openable: Sockets, k: nat)
    requires Valid(t) && |ip| == 4 && Served(b, host, joiner, allowed)
    requires 1 <= k <= 10 && (forall j :: 1 <= j < k ==> !Vacant(b, 6 * j)) && (k < 10 ==> Vacant(b, 6 * k))
    ensures var (u, c) := WithRelay(t, ip, b, host, joiner, allowed, now, openable);
      var key := LittleEndian(host, 8) + LittleEndian(joiner, 8);
      key in u.pairs ==> if k == 10 then c == b else HoldsAt(b, c, k, ip, u.pairs[key].port)
  {
    EligibleIs(b, host, joiner, allowed);
    var key := PairKey(host, joiner);
    var (u, found) := PairFor(t, key, Destination(b), now, openable);
    FreeSlotIs(b, k);
    PortGiven(t, key, Destination(b), now, openable);
    hide Eligible, Served, Valid, PairFor, Destination, FreeSlot, HoldsAt, Vacant;
    if found.Given? && k < 10 { PutBytes(b, k, Addr(ip, found.port)); }
  }

  lemma PortGiven(t: Table, key: Key, dst: Addr, now: int, openable: Sockets)
    requires Valid(t)
    ensures var (u, found) := PairFor(t, key, dst, now, openable);
      if found.Given? then key in u.pairs && u.pairs[key].port == found.port && 0 < found.port < 65536 else key !in u.pairs
  {
    if PairFor(t, key, dst, now, openable).1.Given? { GivenPort(t, key, dst, now, openable); }
    hide Usable, InRange, Turn;
  }

  lemma FreeSlotIs(b: Bytes, k: nat)
    requires |b| >= 67 && 1 <= k <= 10 && (forall j :: 1 <= j < k ==> !Vacant(b, 6 * j)) && (k < 10 ==> Vacant(b, 6 * k))
    ensures FreeSlot(b, FIRST) == k
  {
    forall j | 1 <= j <= 9 ensures Taken(b, j) <==> !Vacant(b, 6 * j) { ParseIs(b, 6 * j); }
    hide Vacant, Taken;
    FreeSlotFrom(b, 1, k);
  }

  lemma {:induction false} FreeSlotFrom(b: Bytes, i: nat, k: nat)
    requires |b| >= BLOB && 1 <= i <= k <= 10 && (forall j :: i <= j < k ==> Taken(b, j)) && (k < 10 ==> !Taken(b, k))
    ensures FreeSlot(b, i) == k
    decreases k - i
  {
    hide Taken;
    if i < k { FreeSlotFrom(b, i + 1, k); }
  }

  lemma PutBytes(b: Bytes, k: nat, a: Addr)
    requires |b| >= 67 && 1 <= k <= 9 && |a.ip| == 4 && 0 <= a.port < 65536
    ensures HoldsAt(b, Put(b, k, AddrSlot(a)), k, a.ip, a.port)
  {
    PutFillsOneSlot(b, k, AddrSlot(a));
    var c := Put(b, k, AddrSlot(a));
    assert c[6*k..6*k+6] == AddrSlot(a);
    hide Put, Slot;
    assert c[6*k..6*k+4] == c[6*k..6*k+6][..4];
    assert c[6*k+4] == c[6*k..6*k+6][4] && c[6*k+5] == c[6*k..6*k+6][5];
  }
}
