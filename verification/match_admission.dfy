/** What a search does when it arrives, said of the queue and the rooms before and after. */
module MatchAdmission {
  import opened Common
  import opened MatchTypes
  import opened MatchSteps
  import opened MatchInvariant
  import opened MatchSync
  import opened MatchProgress
  import opened MatchRuns
  import opened MatchMerge
  import opened MatchSeating
  import opened MatchSynced

  // ---------- eviction ----------

  /** Who is left in a room once the account's search is out of it. */
  function Left(r: Room, pid: nat): seq<Search> { Select(r.players, NotLedBy(pid)) }

  /** The room once the account's search is out of it. */
  function Vacated(r: Room, pid: nat): Room {
    r.(players := Left(r, pid), notified := r.notified - set p | p in r.players && p.conn.pid == pid :: p.conn)
  }

  predicate HostedBy(r: Room, pid: nat) { r.host.conn.pid == pid }

  lemma {:induction false} DropIsSelect(q: seq<Search>, pid: nat)
    requires Distinct(q)
    ensures DropFirst(q, LedBy(pid)) == Select(q, NotLedBy(pid))
    ensures First(q, LedBy(pid)) == |q| ==> pid !in Pids(q)
  {
    var i := First(q, LedBy(pid));
    if i == |q| {
      SelectWhole(q, NotLedBy(pid));
    } else {
      SelectAround(q, i, NotLedBy(pid));
    }
  }

  lemma {:induction false} SelectWhole<T>(q: seq<T>, keep: T -> bool)
    requires forall k :: 0 <= k < |q| ==> keep(q[k])
    ensures Select(q, keep) == q
  {
    if q != [] { SelectWhole(q[..|q|-1], keep); }
  }

  /** One element goes. */
  lemma {:induction false} SelectAround<T>(q: seq<T>, i: nat, keep: T -> bool)
    requires i < |q| && !keep(q[i]) && forall k :: 0 <= k < |q| && k != i ==> keep(q[k])
    ensures Select(q, keep) == q[..i] + q[i+1..]
    decreases |q|
  {
    if i == |q| - 1 {
      SelectWhole(q[..i], keep);
      assert q[..i] + q[i+1..] == q[..i];
    } else {
      SelectAround(q[..|q|-1], i, keep);
      assert q[..|q|-1][..i] + q[..|q|-1][i+1..] + [q[|q|-1]] == q[..i] + q[i+1..];
    }
  }

  lemma EvictIsVacated(r: Room, pid: nat)
    requires Distinct(r.players)
    ensures EvictFrom(r, pid) == Vacated(r, pid)
  {
    DropIsSelect(r.players, pid);
    LedConns(r.players, pid);
    assert r.notified - {} == r.notified;
    hide Select, Distinct;
  }

  lemma LedConns(q: seq<Search>, pid: nat)
    requires Distinct(q)
    ensures var i := First(q, LedBy(pid));
      (set p | p in q && p.conn.pid == pid :: p.conn) == if i < |q| then {q[i].conn} else {}
  {
    var i := First(q, LedBy(pid));
    hide First;
    forall p | p in q && p.conn.pid == pid ensures i < |q| && p == q[i] {
      var k :| 0 <= k < |q| && q[k] == p;
      assert LedBy(pid)(q[k]);
    }
    hide Distinct;
    if i < |q| { assert LedBy(pid)(q[i]); }
  }

  /** Eviction takes the rooms the account hosts off the table, its search out of every other room
      and out of the queue, and does nothing else. */
  lemma EvictExactly(st: State, pid: nat)
    requires LeadersOnce(st)
    ensures var e := Evict(st, pid);
      && e.waiting == Select(st.waiting, NotLedBy(pid)) && e.ids == st.ids
      && (forall o :: o in e.rooms <==> o in st.rooms && !HostedBy(st.rooms[o], pid))
      && (forall o :: o in e.rooms ==> e.rooms[o] == Vacated(st.rooms[o], pid))
      && (forall o :: o in e.gone <==> o in st.gone || (o in st.rooms && HostedBy(st.rooms[o], pid)))
      && (forall o :: o in e.gone ==> e.gone[o] == if o in st.rooms && HostedBy(st.rooms[o], pid) then st.rooms[o] else st.gone[o])
  {
    forall o | o in st.rooms ensures EvictFrom(st.rooms[o], pid) == Vacated(st.rooms[o], pid) { EvictIsVacated(st.rooms[o], pid); }
    hide EvictFrom, Vacated, LeadersOnce, Select;
  }

  // ---------- which room takes a search ----------

  /** The room is promised to no room that stays on the table. */
  predicate Unpromised(st: State, r: Room, pid: nat) {
    r.target == 0 || r.target !in st.rooms || HostedBy(st.rooms[r.target], pid)
  }

  /** Once the account's old search is gone, room `o` is there, open, reserves nothing, is promised
      to nobody, plays by the search's filter and has the seats. */
  ghost predicate Welcomes(st: State, o: nat, s: Search) {
    o in st.rooms && !HostedBy(st.rooms[o], s.conn.pid) &&
    var r := st.rooms[o];
    var people := SeatSum(Left(r, s.conn.pid)) + |s.members|;
    && r.open && r.host.filter == s.filter && r.source == 0 && Unpromised(st, r, s.conn.pid)
    && people <= r.capacity && people <= s.max
  }

  /** More people first, then the older room. */
  predicate Ahead(st: State, pid: nat, a: nat, b: nat)
    requires a in st.rooms && b in st.rooms
  {
    var (x, y) := (SeatSum(Left(st.rooms[a], pid)), SeatSum(Left(st.rooms[b], pid)));
    x > y || (x == y && a < b)
  }

  /** The table of an evicted state, as far as admissions go. */
  ghost predicate Evicted(st: State, pid: nat, e: State) {
    && (forall o :: o in e.rooms <==> o in st.rooms && !HostedBy(st.rooms[o], pid))
    && (forall o :: o in e.rooms ==> e.rooms[o] == Vacated(st.rooms[o], pid) && Sound(e, o))
    && 0 !in e.rooms && 0 !in e.gone
  }

  lemma AdmitsExactly(st: State, e: State, o: nat, s: Search)
    requires Evicted(st, s.conn.pid, e) && o in e.rooms && s.seats == |s.members|
    ensures Admits(e, e.rooms[o], s) <==> Welcomes(st, o, s)
  {
    if e.rooms[o].source == 0 { ReadyExactly(e, e.rooms[o]); }
    hide Occupancy, MergeOpen, AllConnected, RoomOk, NoneFailed, SeatSum, Left;
  }

  lemma AheadExactly(st: State, e: State, pid: nat, a: nat, b: nat)
    requires Evicted(st, pid, e) && a in e.rooms && b in e.rooms && e.rooms[a].source == 0 && e.rooms[b].source == 0
    ensures a in st.rooms && b in st.rooms && (Before(e, e.rooms[a], e.rooms[b]) <==> Ahead(st, pid, a, b))
  {
    BeforeExactly(e, a, b);
    hide SeatSum, Left, Sound, Before;
  }

  lemma LeaderExactly(st: State, e: State, s: Search) returns (best: nat)
    requires Evicted(st, s.conn.pid, e) && TableKeyed(e) && s.seats == |s.members|
    ensures best == Leader(e, Admitting(e, s)) && (best in e.rooms <==> best != 0)
    ensures best != 0 <==> exists o :: Welcomes(st, o, s)
    ensures best != 0 ==> Welcomes(st, best, s) && forall o :: Welcomes(st, o, s) && o != best ==> Ahead(st, s.conn.pid, best, o)
  {
    hide Admits, Welcomes, Before, Ahead, Sound, Vacated, HostedBy;
    var ids := Admitting(e, s);
    forall o | o in e.rooms ensures o in ids <==> Welcomes(st, o, s) { AdmitsExactly(st, e, o, s); }
    WelcomesThere(st, e, s);
    best := Leader(e, ids);
    LeaderIn(e, ids, best);
    if best in e.rooms {
      forall o | Welcomes(st, o, s) && o != best ensures Ahead(st, s.conn.pid, best, o) { AheadExactly(st, e, s.conn.pid, best, o); }
    }
  }

  lemma WelcomesThere(st: State, e: State, s: Search)
    requires Evicted(st, s.conn.pid, e)
    ensures forall o :: Welcomes(st, o, s) ==> o in e.rooms && o in st.rooms && e.rooms[o].source == 0
  {
    hide SeatSum, Left, Sound;
  }

  // ---------- the search in its room ----------

  /** The scan forgets a promise to a room that is gone, up to the room it selects. */
  predicate Forgets(st: State, pid: nat, best: nat, o: nat)
    requires o in st.rooms && (best != 0 ==> best in st.rooms)
  {
    st.rooms[o].target != 0 && Unpromised(st, st.rooms[o], pid) && (best == 0 || !Ahead(st, pid, best, o))
  }

  /** A room the search is not seated in: the account is out of it. */
  function Passed(st: State, pid: nat, best: nat, o: nat): Room
    requires o in st.rooms && (best != 0 ==> best in st.rooms)
  {
    var r := Vacated(st.rooms[o], pid);
    if Forgets(st, pid, best, o) then r.(target := 0) else r
  }

  /** The room the search is seated in. */
  function Seated(r: Room, s: Search): Room {
    Room(r.id, r.version + 1, r.host, Left(r, s.conn.pid) + [s], r.open, r.states - set m | m in s.members,
         if s.max < r.capacity then s.max else r.capacity, Vacated(r, s.conn.pid).notified, r.source, 0)
  }

  lemma ScannedRoom(st: State, e: State, pid: nat, best: nat, o: nat)
    requires Evicted(st, pid, e) && TableKeyed(e) && o in e.rooms && (best != 0 ==> best in e.rooms && e.rooms[best].source == 0)
    requires e.rooms[o].target != 0 ==> e.rooms[o].source == 0
    ensures Scanned(e, best).rooms[o] == Passed(st, pid, best, o)
  {
    if e.rooms[o].target != 0 && best != 0 { AheadExactly(st, e, pid, best, o); }
    assert best != 0 ==> best in st.rooms && o in st.rooms;
    assert Stale(e, e.rooms[o]) <==> st.rooms[o].target != 0 && Unpromised(st, st.rooms[o], pid);
    hide Before, Ahead, Sound, Left, HostedBy;
  }

  lemma TargetNoSource(e: State, o: nat)
    requires Inv(e) && o in e.rooms
    ensures e.rooms[o].target != 0 ==> e.rooms[o].source == 0
  {
    InvParts(e);
    if e.rooms[o].source != 0 { assert Paired(e.rooms[o], Find(e, e.rooms[o].source)); }
    hide Inv, RoomsOk, LeadersOnce, QueueOk, Keyed;
  }

  lemma SeatedIs(st: State, pid: nat, best: nat, s: Search)
    requires best in st.rooms && best != 0 && Unpromised(st, st.rooms[best], pid) && s.conn.pid == pid
    ensures Bump(Seat(Passed(st, pid, best, best), s)) == Seated(st.rooms[best], s)
  {
    hide Left;
  }

  /** The group the queue makes: one after the other, whoever asks for the filter and is
      compatible with all taken before. */
  ghost function Grouped(q: seq<Search>, filter: string): seq<Search> {
    if q == [] then [] else
      var g, p := Grouped(q[..|q|-1], filter), q[|q|-1];
      if p.filter == filter && Compatible(g + [p]) then g + [p] else g
  }

  lemma {:induction false} GreedyIsGrouped(q: seq<Search>, filter: string)
    requires QueueOk(q)
    ensures Greedy(q, filter).picked == Grouped(q, filter) && Tight(Greedy(q, filter))
    decreases |q|
  {
    GreedyMaximal(q, filter);
    if q != [] {
      var q0, p := q[..|q|-1], q[|q|-1];
      LastValid(q);
      GreedyIsGrouped(q0, filter);
      ConsiderDecides(Greedy(q0, filter), p, filter);
      GroupChanged(Greedy(q0, filter), p, filter);
      hide Tight, Compatible, QueueOk, ValidSearch;
    }
  }

  lemma GroupChanged(g: Group, p: Search, filter: string)
    ensures Consider(g, p, filter) != g ==> Consider(g, p, filter).picked == g.picked + [p] && p.filter == filter
  {
  }

  lemma LastValid(q: seq<Search>)
    requires q != [] && QueueOk(q)
    ensures QueueOk(q[..|q|-1]) && ValidSearch(q[|q|-1])
  {
    assert q[|q|-1] in q;
    hide ValidSearch;
  }

  /** The room a group opens: the first of it is the host, and alone on the told list; it has as many
      seats as everybody agrees to. */
  ghost predicate Opens(g: seq<Search>, id: nat, r: Room) {
    && g != [] && r == Room(id, 1, g[0], g, true, map[], r.capacity, {g[0].conn}, 0, 0)
    && r.capacity >= 0 && Agreed(g, r.capacity) && forall n: nat :: Agreed(g, n) ==> n <= r.capacity
  }

  /** A search no room takes: the waiting searches of its filter that agree open a room if they are
      people enough, with the first of them as host; and otherwise it waits. */
  lemma GatherExactly(st: State, s: Search)
    requires QueueOk(st.waiting) && ValidSearch(s) && 0 !in st.rooms && 0 !in st.gone
    ensures var q := st.waiting + [s]; var g := Grouped(q, s.filter); var o := Gather(st, s);
      && (!Agreed(g, SeatSum(g)) ==> o == Outcome(st.(waiting := q), []))
      && (Agreed(g, SeatSum(g)) ==>
            && g != [] && st.ids + 1 in o.state.rooms && Opens(g, st.ids + 1, o.state.rooms[st.ids + 1])
            && o.state == State(Select(q, NotIn(g)), st.rooms[st.ids + 1 := o.state.rooms[st.ids + 1]], st.gone, st.ids + 1)
            && o.out == [Notice(g[0].conn, CREATE_LOBBY, [g[0].id, st.ids + 1, 1], AllMembers(g))])
  {
    var q := st.waiting + [s];
    QueuedOk(st.waiting, s);
    GreedyIsGrouped(q, s.filter);
    var g := Greedy(q, s.filter);
    TightAgrees(g);
    if g.picked != [] { FreshExpected(State(Select(q, NotIn(g.picked)), st.rooms[st.ids + 1 := NewRoom(st.ids + 1, g)], st.gone, st.ids + 1), st.ids + 1, g); }
    hide Greedy, Grouped, Tight, Select, Expected, QueueOk, ValidSearch, SeatSum, Agreed, AllMembers;
  }

  lemma TightAgrees(g: Group)
    requires Tight(g)
    ensures g.seats == SeatSum(g.picked)
    ensures Agreed(g.picked, SeatSum(g.picked)) <==> g.minimum <= g.seats && g.picked != []
    ensures Agreed(g.picked, g.maximum) && forall n: nat :: Agreed(g.picked, n) ==> n <= g.maximum
  {
    assert Agreed(g.picked, SeatSum(g.picked)) <==> g.minimum <= SeatSum(g.picked) <= g.maximum;
    assert Agreed(g.picked, g.maximum);
    if g.picked == [] { assert !Agreed([], SeatSum([])); }
    hide Agreed, SeatSum;
  }

  /** Nobody has failed in a new room. */
  lemma FreshExpected(st: State, id: nat, g: Group)
    requires g.picked != [] && id in st.rooms && st.rooms[id] == NewRoom(id, g) && id != 0
    ensures 0 !in st.rooms && 0 !in st.gone ==> Expected(st, NewRoom(id, g)) == AllMembers(g.picked)
  {
    assert forall m :: !NewRoom(id, g).Failed(m);
    if 0 !in st.rooms && 0 !in st.gone { SeatedExpected(st, NewRoom(id, g)); }
  }

  // ---------- the whole search ----------

  /** Every room that was there and is not hosted by the account is still there, the account out of
      it, and nothing else changed in it but a promise forgotten. */
  ghost predicate OthersPassed(st: State, pid: nat, best: nat, st': State)
    requires best != 0 ==> best in st.rooms
  {
    && (forall o :: o in st.rooms && o != best && !HostedBy(st.rooms[o], pid) ==> o in st'.rooms && st'.rooms[o] == Passed(st, pid, best, o))
    && (forall o :: o in st'.rooms ==> (o in st.rooms && !HostedBy(st.rooms[o], pid)) || o == st.ids + 1)
    && (forall o :: o in st'.gone <==> o in st.gone || (o in st.rooms && HostedBy(st.rooms[o], pid)))
  }

  /** Everybody seated in a room that reserves nothing is expected, as nobody in it has failed. */
  lemma SeatedExpected(st: State, r: Room)
    requires r.source == 0 && NoneFailed(r) && 0 !in st.rooms && 0 !in st.gone
    ensures Expected(st, r) == AllMembers(r.players)
  {
    assert PlayersOf(st, r.source) == [] && r.players + [] == r.players;
    forall m ensures m in Expected(st, r) <==> m in AllMembers(r.players) {
      if m in AllMembers(r.players) {
        var p :| p in r.players && m in p.members;
        assert !r.Failed(m) && p in r.players + PlayersOf(st, r.source);
      }
    }
  }

  lemma EvictedFrom(st: State, pid: nat) returns (e: State)
    requires Inv(st)
    ensures e == Evict(st, pid) && Evicted(st, pid, e) && TableKeyed(e) && TableKeyed(st) && Inv(e)
    ensures e.waiting == Select(st.waiting, NotLedBy(pid)) && e.ids == st.ids
    ensures forall o :: o in e.gone <==> o in st.gone || (o in st.rooms && HostedBy(st.rooms[o], pid))
    ensures QueueOk(e.waiting) && 0 !in st.rooms && st.ids + 1 !in st.rooms
  {
    hide *;
    e := Evict(st, pid);
    InvParts(st);
    EvictKeeps(st, pid);
    EvictExactly(st, pid);
    InvParts(e);
    ZeroIsNoRoom(e);
    ZeroIsNoRoom(st);
    NewIdsFresh(st);
    AllSound(e);
    EvictedIs(st, pid, e);
  }

  lemma EvictedIs(st: State, pid: nat, e: State)
    requires (forall o :: o in e.rooms <==> o in st.rooms && !HostedBy(st.rooms[o], pid))
    requires (forall o :: o in e.rooms ==> e.rooms[o] == Vacated(st.rooms[o], pid)) && (forall o :: o in e.rooms ==> Sound(e, o))
    requires 0 !in e.rooms && 0 !in e.gone
    ensures Evicted(st, pid, e)
  {
  }

  lemma AllScanned(st: State, e: State, pid: nat, best: nat)
    requires Evicted(st, pid, e) && Inv(e) && TableKeyed(e) && (best != 0 ==> best in e.rooms && e.rooms[best].source == 0)
    ensures best != 0 ==> best in st.rooms
    ensures var v := Scanned(e, best);
      && v.waiting == e.waiting && v.gone == e.gone && v.ids == e.ids && v.rooms.Keys == e.rooms.Keys
      && forall o :: o in v.rooms ==> o in st.rooms && v.rooms[o] == Passed(st, pid, best, o)
  {
    hide Inv, Passed, Stale, Before, Sound, Vacated, HostedBy;
    forall o | o in e.rooms ensures o in st.rooms && Scanned(e, best).rooms[o] == Passed(st, pid, best, o) {
      TargetNoSource(e, o);
      ScannedRoom(st, e, pid, best, o);
    }
  }

  /** The outcome when the search gets a seat in room `best`. */
  ghost predicate SeatedIn(st: State, s: Search, best: nat, o: Outcome) {
    && best in st.rooms && best in o.state.rooms && o.state.rooms[best] == Seated(st.rooms[best], s)
    && OthersPassed(st, s.conn.pid, best, o.state) && st.ids + 1 !in o.state.rooms
    && o.state.waiting == Select(st.waiting, NotLedBy(s.conn.pid)) && o.state.ids == st.ids
    && o.out == [Notice(st.rooms[best].host.conn, UPDATE_LOBBY, [best, st.rooms[best].version + 1], AllMembers(o.state.rooms[best].players))]
  }

  /** The outcome when it does not: it waits, or its group opens a room. */
  ghost predicate Queues(st: State, s: Search, o: Outcome) {
    var q := Select(st.waiting, NotLedBy(s.conn.pid)) + [s];
    var g := Grouped(q, s.filter);
    && OthersPassed(st, s.conn.pid, 0, o.state)
    && if Agreed(g, SeatSum(g)) then
         && st.ids + 1 in o.state.rooms && Opens(g, st.ids + 1, o.state.rooms[st.ids + 1])
         && o.state.waiting == Select(q, NotIn(g)) && o.state.ids == st.ids + 1
         && o.out == [Notice(g[0].conn, CREATE_LOBBY, [g[0].id, st.ids + 1, 1], AllMembers(g))]
       else o.out == [] && o.state.waiting == q && o.state.ids == st.ids && st.ids + 1 !in o.state.rooms
  }

  lemma PassedOthers(st: State, e: State, pid: nat, best: nat, v: State, st': State)
    requires Evicted(st, pid, e) && (best != 0 ==> best in st.rooms) && v.rooms.Keys == e.rooms.Keys && v.gone == e.gone
    requires forall o :: o in v.rooms ==> o in st.rooms && v.rooms[o] == Passed(st, pid, best, o)
    requires forall o :: o in e.gone <==> o in st.gone || (o in st.rooms && HostedBy(st.rooms[o], pid))
    requires forall o :: o in v.rooms && o != best ==> o in st'.rooms && st'.rooms[o] == v.rooms[o]
    requires forall o :: o in st'.rooms ==> o in v.rooms || o == st.ids + 1
    requires st'.gone == v.gone
    ensures OthersPassed(st, pid, best, st')
  {
    hide Passed, Sound, Vacated, HostedBy;
  }

  lemma SeatedOutcome(st: State, e: State, v: State, s: Search, best: nat)
    requires Evicted(st, s.conn.pid, e) && TableKeyed(v) && best != 0 && best in v.rooms && Welcomes(st, best, s)
    requires v.waiting == e.waiting && v.gone == e.gone && v.ids == e.ids && v.rooms.Keys == e.rooms.Keys
    requires forall o :: o in v.rooms ==> o in st.rooms && v.rooms[o] == Passed(st, s.conn.pid, best, o)
    requires forall o :: o in e.gone <==> o in st.gone || (o in st.rooms && HostedBy(st.rooms[o], s.conn.pid))
    requires e.waiting == Select(st.waiting, NotLedBy(s.conn.pid)) && e.ids == st.ids && st.ids + 1 !in st.rooms
    requires var st' := Place(v, best, s).state; best in st'.rooms ==> NoneFailed(st'.rooms[best])
    ensures SeatedIn(st, s, best, Place(v, best, s))
  {
    hide *;
    WelcomesUnpromised(st, best, s);
    SeatedIs(st, s.conn.pid, best, s);
    EvictedFacts(st, s.conn.pid, e);
    var r := Bump(Seat(v.rooms[best], s));
    SeatSame(v.rooms[best], s);
    TableAt(v, best);
    PlaceIs(v, best, s);
    var st' := WithRoom(v, r);
    SeatedShape(st.rooms[best], s);
    SeatedExpected(st', r);
    PassedOthers(st, e, s.conn.pid, best, v, st');
    SeatedInFrom(st, s, best, st', r);
  }

  lemma SeatedInFrom(st: State, s: Search, best: nat, st': State, r: Room)
    requires best in st.rooms && best in st'.rooms && st'.rooms[best] == r == Seated(st.rooms[best], s)
    requires OthersPassed(st, s.conn.pid, best, st') && best != 0 && st.ids + 1 !in st'.rooms && r.id == best
    requires st'.waiting == Select(st.waiting, NotLedBy(s.conn.pid)) && st'.ids == st.ids && Expected(st', r) == AllMembers(r.players)
    ensures SeatedIn(st, s, best, Outcome(st', [UpdateNotice(st', r)]))
  {
    hide OthersPassed, Expected, AllMembers, Left, Vacated, Select;
  }

  lemma SeatedShape(r: Room, s: Search)
    ensures Seated(r, s).source == r.source && Seated(r, s).id == r.id && Seated(r, s).host == r.host
  {
  }

  lemma TableAt(v: State, id: nat)
    requires TableKeyed(v) && id in v.rooms
    ensures v.rooms[id].id == id
  {
  }

  lemma PlaceIs(v: State, best: nat, s: Search)
    requires best in v.rooms && v.rooms[best].id == best
    ensures var r := Bump(Seat(v.rooms[best], s));
      && Place(v, best, s) == Outcome(WithRoom(v, r), [UpdateNotice(WithRoom(v, r), r)])
      && WithRoom(v, r) == State(v.waiting, v.rooms[best := r], v.gone, v.ids)
  {
    SeatSame(v.rooms[best], s);
    hide Seat, Expected;
  }

  lemma WelcomesUnpromised(st: State, best: nat, s: Search)
    requires Welcomes(st, best, s)
    ensures best in st.rooms && Unpromised(st, st.rooms[best], s.conn.pid) && st.rooms[best].source == 0
  {
    hide SeatSum, Left;
  }

  lemma EvictedFacts(st: State, pid: nat, e: State)
    requires Evicted(st, pid, e)
    ensures 0 !in e.rooms && 0 !in e.gone
    ensures forall o :: o in e.rooms ==> o in st.rooms && st.rooms[o].id == o
  {
    forall o | o in e.rooms ensures st.rooms[o].id == o { assert Sound(e, o); }
    hide Left;
  }

  lemma QueuedOutcome(st: State, e: State, v: State, s: Search)
    requires Evicted(st, s.conn.pid, e) && QueueOk(v.waiting) && ValidSearch(s) && 0 !in v.rooms
    requires v.waiting == e.waiting && v.gone == e.gone && v.ids == e.ids && v.rooms.Keys == e.rooms.Keys
    requires forall o :: o in v.rooms ==> o in st.rooms && v.rooms[o] == Passed(st, s.conn.pid, 0, o)
    requires forall o :: o in e.gone <==> o in st.gone || (o in st.rooms && HostedBy(st.rooms[o], s.conn.pid))
    requires e.waiting == Select(st.waiting, NotLedBy(s.conn.pid)) && e.ids == st.ids && st.ids + 1 !in st.rooms
    ensures Queues(st, s, Place(v, 0, s))
  {
    hide *;
    EvictedFacts(st, s.conn.pid, e);
    PlaceGathers(v, s);
    GatherExactly(v, s);
    PassedOthers(st, e, s.conn.pid, 0, v, Gather(v, s).state);
    QueuesFrom(st, v, s, Gather(v, s));
  }

  lemma PlaceGathers(v: State, s: Search)
    requires 0 !in v.rooms
    ensures Place(v, 0, s) == Gather(v, s)
  {
    hide Gather;
  }

  lemma QueuesFrom(st: State, v: State, s: Search, o: Outcome)
    requires v.waiting == Select(st.waiting, NotLedBy(s.conn.pid)) && v.ids == st.ids && st.ids + 1 !in v.rooms
    requires OthersPassed(st, s.conn.pid, 0, o.state)
    requires var q := v.waiting + [s]; var g := Grouped(q, s.filter);
      && (!Agreed(g, SeatSum(g)) ==> o == Outcome(v.(waiting := q), []))
      && (Agreed(g, SeatSum(g)) ==>
            && v.ids + 1 in o.state.rooms && Opens(g, v.ids + 1, o.state.rooms[v.ids + 1])
            && o.state == State(Select(q, NotIn(g)), v.rooms[v.ids + 1 := o.state.rooms[v.ids + 1]], v.gone, v.ids + 1)
            && g != [] && o.out == [Notice(g[0].conn, CREATE_LOBBY, [g[0].id, v.ids + 1, 1], AllMembers(g))])
    ensures Queues(st, s, o)
  {
    hide OthersPassed, Grouped, Agreed, SeatSum, Opens, AllMembers, Select;
  }

  /** What a search does, exactly: its account leaves whatever it was in; if some room welcomes the
      search it is seated in the one with most people, the oldest among equals, and that room's host
      is sent the new version; otherwise it waits, or its group opens a room. */
  lemma AskExactly(st: State, s: Search) returns (best: nat)
    requires Inv(st) && ValidSearch(s)
    ensures TableKeyed(st)
    ensures best != 0 <==> exists o :: Welcomes(st, o, s)
    ensures best != 0 ==>
      && Welcomes(st, best, s) && (forall o :: Welcomes(st, o, s) && o != best ==> Ahead(st, s.conn.pid, best, o))
      && SeatedIn(st, s, best, Step(st, Ask(s)))
    ensures best == 0 ==> Queues(st, s, Step(st, Ask(s)))
    ensures CREATE_LOBBY == 2005 && UPDATE_LOBBY == 2006
  {
    EventNumbers();
    ValidBasics(s);
    hide *;
    var e := EvictedFrom(st, s.conn.pid);
    best := LeaderExactly(st, e, s);
    WelcomesThere(st, e, s);
    AllScanned(st, e, s.conn.pid, best);
    var v := Scanned(e, best);
    ScannedKeeps(e, best);
    InvKeyed(v);
    EnqueueKeeps(st, s);
    StepAsk(st, Ask(s));
    AskPlaces(st, s, best);
    if best != 0 {
      if best in Enqueue(st, s).state.rooms { InvAt(Enqueue(st, s).state, best); }
      SeatedOutcome(st, e, v, s, best);
    } else {
      QueuedOutcome(st, e, v, s);
    }
  }

  lemma AskPlaces(st: State, s: Search, best: nat)
    requires TableKeyed(st) && TableKeyed(Evict(st, s.conn.pid))
    requires best == Leader(Evict(st, s.conn.pid), Admitting(Evict(st, s.conn.pid), s))
    ensures Enqueue(st, s) == Place(Scanned(Evict(st, s.conn.pid), best), best, s)
  {
    hide Evict, Scanned, Place, Admits, Leader;
  }

  lemma NoneLed(q: seq<Search>, pid: nat)
    ensures pid !in Pids(Select(q, NotLedBy(pid)))
  {
    forall p | p in Select(q, NotLedBy(pid)) ensures p.conn.pid != pid { SelectMember(q, NotLedBy(pid), p); }
    hide Select;
  }

  lemma PassedRoom(st: State, pid: nat, best: nat, st': State, o: nat)
    requires (best != 0 ==> best in st.rooms) && OthersPassed(st, pid, best, st')
    requires o in st.rooms && o in st'.rooms && o != best && o != st.ids + 1
    ensures st'.rooms[o].players == Left(st.rooms[o], pid) && st'.rooms[o].notified <= st.rooms[o].notified
  {
    hide HostedBy, Forgets, Left;
  }

  lemma SeatedRoom(r: Room, s: Search)
    ensures Seated(r, s).notified <= r.notified
  {
    hide Left;
  }

  lemma SeatedInOthers(st: State, s: Search, best: nat, o: Outcome)
    requires SeatedIn(st, s, best, o)
    ensures best in st.rooms && best in o.state.rooms && o.state.rooms[best] == Seated(st.rooms[best], s)
    ensures OthersPassed(st, s.conn.pid, best, o.state)
  {
    hide OthersPassed, Seated;
  }

  lemma QueuesOthers(st: State, s: Search, o: Outcome)
    requires Queues(st, s, o)
    ensures OthersPassed(st, s.conn.pid, 0, o.state)
  {
    hide OthersPassed, Grouped, Agreed, Opens, SeatSum, Select, AllMembers;
  }

  /** What a search does to a room that was there before: the account is out of it, and the search is
      in it only if it was welcome there. */
  lemma AskRoom(st: State, s: Search, o: nat)
    requires Inv(st) && ValidSearch(s) && o in st.rooms && TableKeyed(st) && o in Step(st, Ask(s)).state.rooms
    ensures Step(st, Ask(s)).state.rooms[o].notified <= st.rooms[o].notified
    ensures Step(st, Ask(s)).state.rooms[o].players == Left(st.rooms[o], s.conn.pid) || Welcomes(st, o, s)
  {
    hide *;
    InvParts(st);
    NewIdsFresh(st);
    ZeroIsNoRoom(st);
    var best := AskExactly(st, s);
    if best != 0 {
      SeatedInOthers(st, s, best, Step(st, Ask(s)));
      SeatedRoom(st.rooms[best], s);
    } else {
      QueuesOthers(st, s, Step(st, Ask(s)));
    }
    if o != best || best == 0 { PassedRoom(st, s.conn.pid, best, Step(st, Ask(s)).state, o); }
  }

  /** A search that ends up in a room that was there before was welcome in it: in particular the
      room was open. */
  lemma SeatedOnlyIfWelcome(st: State, s: Search, o: nat)
    requires Inv(st) && ValidSearch(s) && o in st.rooms && TableKeyed(st)
    requires o in Step(st, Ask(s)).state.rooms && s in Step(st, Ask(s)).state.rooms[o].players
    ensures Welcomes(st, o, s)
  {
    AskRoom(st, s, o);
    LedIn(Step(st, Ask(s)).state.rooms[o].players, s);
    NoneLed(st.rooms[o].players, s.conn.pid);
    hide Inv, ValidSearch, Step, Welcomes, Pids, Select;
  }

  // ---------- leaving and giving up ----------

  lemma {:induction false} DropOnly<T>(q: seq<T>, hit: T -> bool, keep: T -> bool)
    requires forall x :: x in q ==> (hit(x) <==> !keep(x))
    requires forall i, j :: 0 <= i < j < |q| ==> !(hit(q[i]) && hit(q[j]))
    ensures DropFirst(q, hit) == Select(q, keep)
  {
    var i := First(q, hit);
    if i == |q| {
      SelectWhole(q, keep);
    } else {
      SelectAround(q, i, keep);
    }
  }

  lemma OneOfConn(q: seq<Search>, c: Conn)
    requires Distinct(q)
    ensures DropFirst(q, OfConn(c)) == Select(q, NotOfConn(c))
  {
    DropOnly(q, OfConn(c), NotOfConn(c));
  }

  /** A room a connection has left. */
  function Without(r: Room, c: Conn): Room { r.(players := Select(r.players, NotOfConn(c))) }

  /** Leaving lobby `id`, or every lobby when it is 0, takes the connection's search out of the
      queue and out of those rooms and nothing more: the told lists stay. A room it hosts goes. */
  lemma QuitExactly(st: State, c: Conn, id: nat)
    requires Inv(st)
    ensures TableKeyed(st)
    ensures var o := Step(st, Quit(c, id));
      && o.out == [] && o.state.waiting == Select(st.waiting, NotOfConn(c)) && o.state.ids == st.ids
      && (forall k :: k in o.state.rooms <==> k in st.rooms && !((id == 0 || k == id) && st.rooms[k].host.conn == c))
      && (forall k :: k in o.state.rooms ==> o.state.rooms[k] == if id == 0 || k == id then Without(st.rooms[k], c) else st.rooms[k])
      && (forall k :: k in o.state.gone <==> k in st.gone || (k in st.rooms && k !in o.state.rooms))
      && (forall k :: k in o.state.gone ==> o.state.gone[k] == if k in st.rooms then st.rooms[k] else st.gone[k])
  {
    InvParts(st);
    forall k | k in st.rooms ensures st.rooms[k].id == k && DropFirst(st.rooms[k].players, OfConn(c)) == Select(st.rooms[k].players, NotOfConn(c)) {
      InvAt(st, k);
      OneOfConn(st.rooms[k].players, c);
    }
    assert forall k :: k in st.gone ==> k !in st.rooms by { hide Inv, Links, LeadersOnce, QueueOk, RoomsOk; }
    hide Inv, Core, Keyed, Links, LeadersOnce, QueueOk, RoomsOk, Select, DropFirst;
  }

  /** A connection that leaves every lobby is nowhere any more. */
  lemma GoneForGood(st: State, c: Conn)
    requires Inv(st)
    ensures TableKeyed(st)
    ensures var st' := Step(st, Quit(c, 0)).state; c !in Conns(st'.waiting) && forall k :: k in st'.rooms ==> c !in Conns(st'.rooms[k].players)
  {
    QuitExactly(st, c, 0);
    forall q: seq<Search> ensures c !in Conns(Select(q, NotOfConn(c))) { NoneOf(q, c); }
    hide Inv, Step, Conns, Select;
  }

  lemma NoneOf(q: seq<Search>, c: Conn)
    ensures c !in Conns(Select(q, NotOfConn(c)))
  {
    forall p | p in Select(q, NotOfConn(c)) ensures p.conn != c { SelectMember(q, NotOfConn(c), p); }
    hide Select;
  }

  /** Giving up a waiting search takes that one out of the queue and does nothing else. */
  lemma WithdrawExactly(st: State, c: Conn, id: nat)
    requires Inv(st)
    ensures TableKeyed(st)
    ensures Step(st, Withdraw(c, id)) == Outcome(st.(waiting := Select(st.waiting, (p: Search) => !(p.conn == c && p.id == id))), [])
  {
    InvParts(st);
    hide Inv, Core, Keyed, Links, QueueOk, RoomsOk;
    OneRequest(st.waiting, c, id);
    hide DropFirst, Select, LeadersOnce;
  }

  lemma OneRequest(q: seq<Search>, c: Conn, id: nat)
    requires Distinct(q)
    ensures DropFirst(q, IsRequest(c, id)) == Select(q, (p: Search) => !(p.conn == c && p.id == id))
  {
    DropOnly(q, IsRequest(c, id), (p: Search) => !(p.conn == c && p.id == id));
  }
}
