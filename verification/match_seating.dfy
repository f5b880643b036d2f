/** Seating a search: versions grow, greedy groups are feasible and maximal, and exactly when
    a re-seated guest hears about it. */
module MatchSeating {
  import opened Common
  import opened MatchTypes
  import opened MatchSteps
  import opened MatchInvariant
  import opened MatchSync
  import opened MatchProgress
  import opened MatchRuns
  import opened MatchMerge

  // ---------- people in a room ----------

  /** The account is reported as timed out (state 3) by a host whose own it is not. */
  predicate CutOff(r: Room, pid: nat) { pid != r.host.conn.pid && pid in r.states && r.states[pid] == 3 }

  /** The places in the searches held by accounts that are not cut off. */
  function People(r: Room, q: seq<Search>): set<(nat, nat)> {
    set i: nat, j: nat | i < |q| && j < |q[i].members| && !CutOff(r, q[i].members[j]) :: (i, j)
  }

  function Members(r: Room, ms: seq<nat>): set<nat> { set j: nat | j < |ms| && !CutOff(r, ms[j]) }

  lemma {:induction false} StandingCounts(r: Room, ms: seq<nat>)
    ensures Standing(r, ms) == |Members(r, ms)|
  {
    if ms != [] {
      var front, m := ms[..|ms|-1], ms[|ms|-1];
      StandingCounts(r, front);
      assert Members(r, ms) == Members(r, front) + if CutOff(r, m) then {} else {|ms|-1};
    }
  }

  lemma {:induction false} RowSize(i: nat, js: set<nat>, row: set<(nat, nat)>)
    requires forall x :: x in row <==> x.0 == i && x.1 in js
    ensures |row| == |js|
    decreases js
  {
    if js == {} {
      assert row == {};
    } else {
      var j :| j in js;
      RowSize(i, js - {j}, row - {(i, j)});
      assert (i, j) in row;
    }
  }

  lemma PeopleSnoc(r: Room, front: seq<Search>, p: Search)
    ensures |People(r, front + [p])| == |People(r, front)| + |Members(r, p.members)|
  {
    var k, q := |front|, front + [p];
    var row := set j: nat | j in Members(r, p.members) :: (k, j);
    RowSize(k, Members(r, p.members), row);
    PeopleSplit(r, front, p, row);
    hide People, Members;
  }

  lemma PeopleSplit(r: Room, front: seq<Search>, p: Search, row: set<(nat, nat)>)
    requires forall x :: x in row <==> x.0 == |front| && x.1 in Members(r, p.members)
    ensures People(r, front + [p]) == People(r, front) + row && People(r, front) !! row
  {
    hide CutOff;
    var q := front + [p];
    assert q[|front|] == p && forall i :: 0 <= i < |front| ==> q[i] == front[i];
    forall x ensures x in People(r, q) <==> x in People(r, front) || x in row {
      if x.0 < |front| { assert q[x.0] == front[x.0]; }
    }
  }

  lemma {:induction false} TakenCounts(r: Room, q: seq<Search>)
    ensures Taken(r, q) == |People(r, q)|
  {
    if q != [] {
      var front, p := q[..|q|-1], q[|q|-1];
      TakenCounts(r, front);
      StandingCounts(r, p.members);
      PeopleSnoc(r, front, p);
      assert q == front + [p];
      hide People, Members, Standing;
    } else {
      assert People(r, q) == {};
    }
  }

  /** A room's occupancy is its people: everybody of every search, the host always and the others
      unless cut off; and those of the room it is to take in, as that room's own host sees them. */
  lemma OccupancyIsPeople(st: State, r: Room)
    ensures Occupancy(st, r) == |People(r, r.players)| +
      if r.source in st.rooms then |People(st.rooms[r.source], st.rooms[r.source].players)|
      else if r.source in st.gone then |People(st.gone[r.source], st.gone[r.source].players)| else 0
  {
    TakenCounts(r, r.players);
    if r.source in st.rooms { TakenCounts(st.rooms[r.source], st.rooms[r.source].players); }
    if r.source in st.gone { TakenCounts(st.gone[r.source], st.gone[r.source].players); }
    hide Taken, People;
  }

  // ---------- seating raises the version ----------

  lemma MergedPids(st: State, id: nat)
    requires TableKeyed(st) && id in st.rooms
    ensures var r := FinishMerge(st, id).state.rooms[id];
      forall x :: x in Pids(r.players) ==>
        x in Pids(st.rooms[id].players) || (st.rooms[id].source in st.rooms && x in Pids(st.rooms[st.rooms[id].source].players))
  {
    if st.rooms[id].source in st.rooms { PidsConcat(st.rooms[id].players, st.rooms[st.rooms[id].source].players); }
    hide Pids, MergeStands, Expected;
  }

  lemma SortedPids(st: State, id: nat, doc: HostDoc)
    requires Inv(st) && id in st.rooms && doc.HostDoc?
    ensures TableKeyed(st)
    ensures forall x :: x in Pids(Sorted(st, id, doc).players) ==>
      x in Pids(st.rooms[id].players) || (st.rooms[id].source in st.rooms && x in Pids(st.rooms[st.rooms[id].source].players))
  {
    InvAt(st, id);
    InvKeyed(st);
    hide *;
    SettleParts(st, id, doc);
    var st1 := Adopt(st, id, doc);
    AdoptSame(st, id, doc);
    MergedPids(st1, id);
    var r := FinishMerge(st1, id).state.rooms[id];
    RejectPids(r);
  }

  lemma AdoptSame(st: State, id: nat, doc: HostDoc)
    requires id in st.rooms && st.rooms[id].id == id && doc.HostDoc?
    ensures var st1 := Adopt(st, id, doc);
      && st1.rooms.Keys == st.rooms.Keys && st1.rooms[id].source == st.rooms[id].source
      && forall o :: o in st.rooms ==> st1.rooms[o].players == st.rooms[o].players
  {
  }

  lemma RejectPids(r: Room)
    ensures Pids(Reject(r).players) <= Pids(r.players)
  {
    TrimAllThins(r, r.players);
    ThinsPids(r.players, Reject(r).players);
    hide Thins, Pids, TrimAll;
  }

  lemma ThinsPids(q: seq<Search>, q': seq<Search>)
    requires Thins(q, q')
    ensures Pids(q') <= Pids(q)
  {
  }

  lemma SettleSeatingBumps(st: State, id: nat, doc: HostDoc, p: Search)
    requires Inv(st) && id in st.rooms && doc.HostDoc? && p in st.waiting
    ensures TableKeyed(st)
    ensures p.conn.pid in Pids(Settle(st, id, doc).state.rooms[id].players)
      ==> Settle(st, id, doc).state.rooms[id].version > st.rooms[id].version
  {
    SortedPids(st, id, doc);
    SortedPending(st, id, doc);
    var added := SettleAdded(st, id, doc);
    WaitingApart(st, id, p);
    hide Inv, Settle, Sorted, Pending, FinishMerge;
    PidsConcat(Sorted(st, id, doc).players, added);
  }

  lemma SyncSeatingBumps(st: State, c: Conn, id: nat, version: nat, doc: HostDoc, p: Search)
    requires Inv(st) && Accepts(st, c, id, version, doc) && p in st.waiting
    ensures TableKeyed(st) && id in Sync(st, c, id, version, doc).state.rooms
    ensures p.conn.pid in Pids(Sync(st, c, id, version, doc).state.rooms[id].players)
      ==> Sync(st, c, id, version, doc).state.rooms[id].version > st.rooms[id].version
  {
    hide Inv, Settle, StartMerge, Pids, OthersKept, Keyed;
    InvKeyed(st);
    SettleSeatingBumps(st, id, doc, p);
    SettleKeeps(st, id, doc);
    var o := Settle(st, id, doc);
    InvKeyed(o.state);
    if st.rooms[id].source != 0 {
      SyncResolves(st, c, id, version, doc);
    } else {
      SettleIdle(st, id, doc);
      StartMergeOthers(o.state, id);
      StartMergeId(o.state, id);
    }
  }

  lemma StartMergeId(st: State, id: nat)
    requires TableKeyed(st) && id in st.rooms && OthersKept(st, StartMerge(st, id).state, id)
    ensures id in StartMerge(st, id).state.rooms
  {
  }

  lemma WaitingApart(st: State, id: nat, p: Search)
    requires Inv(st) && id in st.rooms && p in st.waiting
    ensures p.conn.pid !in Pids(st.rooms[id].players)
    ensures st.rooms[id].source in st.rooms ==> p.conn.pid !in Pids(st.rooms[st.rooms[id].source].players)
  {
    assert p.conn.pid in Pids(st.waiting);
  }

  /** Taking a seat in an existing room by queueing or from the queue always raises that
      room's version, so a document the host made before cannot release the newcomer. */
  lemma SeatingBumps(st: State, a: Action, p: Search, id: nat)
    requires Inv(st) && Legal(a) && id in st.rooms && (p in st.waiting || a == Ask(p))
    ensures TableKeyed(st)
    ensures var st' := Step(st, a).state;
      id in st'.rooms && p.conn.pid in Pids(st'.rooms[id].players) ==> st'.rooms[id].version > st.rooms[id].version
  {
    InvKeyed(st);
    hide *;
    if a.Ask? {
      LegalAsk(a);
      StepAsk(st, a);
      EnqueueSeatingBumps(st, a.s, p, id);
    } else {
      WaitingApart(st, id, p);
      if a.HostSync? && Accepts(st, a.conn, a.room, a.version, a.doc) {
        AcceptsAt(st, a.conn, a.room, a.version, a.doc);
        StepSync(st, a);
        SyncSeatingBumps(st, a.conn, a.room, a.version, a.doc, p);
        SyncReserves(st, a.conn, a.room, a.version, a.doc);
        OtherPlayers(st, Step(st, a).state, a.room, id);
      } else {
        StepThins(st, a, id);
      }
    }
  }

  lemma OtherPlayers(st: State, st': State, id: nat, o: nat)
    requires OthersKept(st, st', id)
    ensures o != id && o in st.rooms && o in st'.rooms ==> st'.rooms[o].players == st.rooms[o].players
  {
  }

  /** Other calls seat nobody. */
  lemma StepThins(st: State, a: Action, id: nat)
    requires Inv(st) && TableKeyed(st) && id in st.rooms && !a.Ask? && !(a.HostSync? && Accepts(st, a.conn, a.room, a.version, a.doc))
    ensures id in Step(st, a).state.rooms ==> Pids(Step(st, a).state.rooms[id].players) <= Pids(st.rooms[id].players)
  {
    if a.Quit? {
      LeaveRoomsOk(st, a.conn, a.room);
      if id in Leave(st, a.conn, a.room).rooms { ThinsPids(st.rooms[id].players, Leave(st, a.conn, a.room).rooms[id].players); }
    }
    hide Inv, Accepts, Settle, StartMerge, Leave, Select, DropFirst, Pids, Thins;
  }

  lemma LeaveRoomsOk(st: State, c: Conn, k: nat)
    requires Inv(st)
    ensures forall id :: id in Leave(st, c, k).rooms ==> Thins(st.rooms[id].players, Leave(st, c, k).rooms[id].players)
  {
    LeaveShrinks(st, c, k);
    forall id | id in Leave(st, c, k).rooms ensures Thins(st.rooms[id].players, Leave(st, c, k).rooms[id].players) {
      assert RoomShrinks(st, st.rooms[id], Leave(st, c, k).rooms[id]);
    }
  }

  lemma EvictRoomsOk(st: State, pid: nat)
    requires Inv(st)
    ensures forall id :: id in Evict(st, pid).rooms ==> id in st.rooms && Thins(st.rooms[id].players, Evict(st, pid).rooms[id].players)
  {
    EvictShrinks(st, pid);
    forall id | id in Evict(st, pid).rooms ensures Thins(st.rooms[id].players, Evict(st, pid).rooms[id].players) {
      assert RoomShrinks(st, st.rooms[id], Evict(st, pid).rooms[id]);
    }
  }

  lemma PlaceElsewhere(st: State, sel: nat, s: Search, id: nat)
    requires TableKeyed(st) && id in st.rooms && st.ids + 1 !in st.rooms
    ensures id in Place(st, sel, s).state.rooms
    ensures if id == sel then Place(st, sel, s).state.rooms[id] == Bump(Seat(st.rooms[id], s))
      else Place(st, sel, s).state.rooms[id] == st.rooms[id]
  {
    hide Greedy, Expected;
    if sel in st.rooms { SeatSame(st.rooms[sel], s); }
  }

  lemma EnqueueSeatingBumps(st: State, s: Search, p: Search, id: nat)
    requires Inv(st) && ValidSearch(s) && id in st.rooms
    requires p == s || p.conn.pid !in Pids(st.rooms[id].players)
    ensures TableKeyed(st)
    ensures var st' := Enqueue(st, s).state;
      id in st'.rooms && p.conn.pid in Pids(st'.rooms[id].players) ==> st'.rooms[id].version > st.rooms[id].version
  {
    InvKeyed(st);
    EvictKeeps(st, s.conn.pid);
    EvictRoomsOk(st, s.conn.pid);
    InvLeaders(st);
    hide Inv, Evict, Admits, Place, Scanned, CalmStep, ValidSearch, Keyed;
    var st1 := Evict(st, s.conn.pid);
    InvKeyed(st1);
    EvictCalm(st, s.conn.pid);
    var sel := Leader(st1, Admitting(st1, s));
    var st2 := Scanned(st1, sel);
    ScannedSame(st1, sel);
    ScannedCalm(st1, sel);
    CalmTransitive(st, st1, st2);
    CalmAt(st, st2, id);
    if id in st2.rooms {
      PlaceElsewhere(st2, sel, s, id);
      CalmVersion(st, st2, id);
      ThinsPids(st.rooms[id].players, st1.rooms[id].players);
    } else if id in Place(st2, sel, s).state.rooms {
      PlaceAdds(st2, sel, s, id);
    }
  }

  lemma CalmVersion(st: State, st': State, id: nat)
    requires CalmStep(st, st') && id in st'.rooms
    ensures id in st.rooms && st'.rooms[id].version == st.rooms[id].version
  {
  }

  // ---------- when a re-seated guest is told ----------

  /** A guest seated by queueing gets a join notice from the next accepted sync of that room
      (one that does not report the whole party as failed) if and only if its connection was
      not already on the room's list of told connections. leave() does not clear that list,
      so a guest who leaves and is seated again over the same connection is not told. */
  lemma ToldAfterSeating(st: State, id: nat, s: Search, c: Conn, doc: HostDoc)
    requires Inv(st) && id in st.rooms && s in st.rooms[id].players && st.rooms[id].source == 0
    requires Accepts(st, c, id, st.rooms[id].version, doc)
    requires Trim(st.rooms[id].(states := doc.states), s).members != []
    ensures TableKeyed(st)
    ensures (exists n :: n in Sync(st, c, id, st.rooms[id].version, doc).out && n.event == JOIN_LOBBY && n.conn == s.conn)
      <==> s.conn !in st.rooms[id].notified
  {
    var version := st.rooms[id].version;
    SyncJoins(st, c, id, version, doc);
    ZeroIsNoRoom(st);
    FinishMergeIdle(Adopt(st, id, doc), id);
    var r := Adopt(st, id, doc).rooms[id];
    assert Sorted(st, id, doc) == Reject(r);
    assert Distinct(r.players);
    hide Inv, Sync, Sorted, FinishMerge;
    assert Trim(r, s) == Trim(st.rooms[id].(states := doc.states), s) by { TrimStates(r, st.rooms[id].(states := doc.states), s, s.members); }
    TrimAllOf(r, r.players, Trim(r, s));
    assert s.conn in Conns(Reject(r).players) by { assert Trim(r, s) in Reject(r).players && Trim(r, s).conn == s.conn; }
    if s.conn in Rejected(r, r.players) {
      var x :| x in r.players && Trim(r, x).members == [] && x.conn == s.conn;
      SameConnSameSearch(r.players, s, x);
    }
    assert s.conn in Pending(Reject(r)) <==> s.conn !in st.rooms[id].notified;
  }

  lemma {:induction false} TrimStates(a: Room, b: Room, s: Search, ms: seq<nat>)
    requires a.states == b.states && a.host == b.host
    ensures StandingMembers(a, ms) == StandingMembers(b, ms)
  {
    if ms != [] { TrimStates(a, b, s, ms[..|ms|-1]); }
  }

  // ---------- greedy grouping ----------

  /** A lobby of `n` seats suits every search in `ps`. */
  ghost predicate Agreed(ps: seq<Search>, n: nat) {
    2 <= n <= 8 && forall p :: p in ps ==> p.min <= n <= p.max
  }

  /** Some lobby size suits everyone and has a seat for everyone. */
  ghost predicate Compatible(ps: seq<Search>) {
    exists n :: Agreed(ps, n) && SeatSum(ps) <= n
  }

  /** The group's limits are exactly the ones its members impose. */
  ghost predicate Tight(g: Group) {
    && (forall n: nat :: Agreed(g.picked, n) <==> g.minimum <= n <= g.maximum)
    && g.seats == SeatSum(g.picked) && g.minimum <= g.maximum && g.seats <= g.maximum
  }

  /** Taking a search or leaving it out is decided by compatibility. */
  lemma ConsiderDecides(g: Group, p: Search, filter: string)
    requires Tight(g) && ValidSearch(p)
    ensures Tight(Consider(g, p, filter))
    ensures p.filter == filter ==> (Consider(g, p, filter) != g <==> Compatible(g.picked + [p]))
    ensures Consider(g, p, filter).picked == g.picked || Consider(g, p, filter).picked == g.picked + [p]
  {
    SeatSumAppend(g.picked, p);
    ValidBasics(p);
    hide SeatSum, ValidSearch;
    var lo, hi := Max(g.minimum, p.min), Min(g.maximum, p.max);
    forall n: nat ensures Agreed(g.picked + [p], n) <==> lo <= n <= hi {
      assert Agreed(g.picked + [p], n) <==> Agreed(g.picked, n) && p.min <= n <= p.max by { AgreedAppend(g.picked, p, n); }
    }
    if lo <= hi && g.seats + p.seats <= hi { assert Agreed(g.picked + [p], hi); }
    assert g.picked + [p] != g.picked by { assert |g.picked + [p]| != |g.picked|; }
  }

  lemma AgreedAppend(ps: seq<Search>, p: Search, n: nat)
    ensures Agreed(ps + [p], n) <==> 2 <= n <= 8 && Agreed(ps, n) && p.min <= n <= p.max
  {
    assert forall x :: x in ps + [p] <==> x in ps || x == p;
  }

  lemma ValidBasics(p: Search)
    requires ValidSearch(p)
    ensures p.seats == |p.members| && 1 <= p.min <= p.max <= 8
  {
  }

  /** What does not fit a group does not fit a larger one. */
  lemma CompatibleShrinks(a: seq<Search>, x: Search, p: Search)
    requires Compatible(a + [x] + [p])
    ensures Compatible(a + [p])
  {
    var n :| Agreed(a + [x] + [p], n) && SeatSum(a + [x] + [p]) <= n;
    SeatSumAppend(a + [x], p);
    SeatSumAppend(a, x);
    SeatSumAppend(a, p);
    AgreedAppend(a + [x], p, n);
    AgreedAppend(a, x, n);
    AgreedAppend(a, p, n);
  }

  /** The greedy group is compatible, and no search of the same filter that was left out
      could be added to it. */
  lemma {:induction false} GreedyMaximal(q: seq<Search>, filter: string)
    requires QueueOk(q)
    ensures Tight(Greedy(q, filter)) && Compatible(Greedy(q, filter).picked)
    ensures forall p :: p in q && p.filter == filter && p !in Greedy(q, filter).picked ==> !Compatible(Greedy(q, filter).picked + [p])
  {
    var g := Greedy(q, filter);
    if q == [] {
      assert Agreed([], 2) && SeatSum([]) <= 2;
    } else {
      var q0, x := q[..|q|-1], q[|q|-1];
      assert q == q0 + [x];
      assert ValidSearch(x) && QueueOk(q0);
      hide ValidSearch, SeatSum, QueueOk;
      GreedyMaximal(q0, filter);
      var g0 := Greedy(q0, filter);
      ConsiderDecides(g0, x, filter);
      TightCompatible(g);
      hide Tight, Compatible;
      forall p | p in q && p.filter == filter && p !in g.picked ensures !Compatible(g.picked + [p]) {
        if g.picked == g0.picked + [x] {
          assert x in g.picked && p in q0;
          if Compatible(g.picked + [p]) { CompatibleShrinks(g0.picked, x, p); }
        }
      }
    }
  }

  lemma TightCompatible(g: Group)
    requires Tight(g)
    ensures Compatible(g.picked)
  {
    assert Agreed(g.picked, g.maximum);
  }

  lemma GatherOpens(st: State, s: Search)
    requires Gather(st, s).state.ids != st.ids
    ensures var g := Greedy(st.waiting + [s], s.filter); var o := Gather(st, s);
      && g.picked != [] && g.minimum <= g.seats
      && o.state.ids == st.ids + 1 && o.state.rooms == st.rooms[st.ids + 1 := NewRoom(st.ids + 1, g)]
      && o.state.waiting == Select(st.waiting + [s], NotIn(g.picked))
      && o.out != [] && o.out[0].conn == g.picked[0].conn && o.out[0].event == CREATE_LOBBY
  {
    hide Greedy, Select, Expected;
  }

  /** Who opens the new room `r`, given the queue `q` it was grouped from. */
  ghost predicate WellOpened(r: Room, q: seq<Search>, o: Outcome, filter: string) {
    && 2 <= SeatSum(r.players) && (forall p :: p in r.players ==> p.min <= SeatSum(r.players) <= p.max && p.filter == filter)
    && (forall p :: p in r.players ==> p in q)
    && o.state.waiting == Select(q, NotIn(r.players))
    && (forall p :: p in o.state.waiting && p.filter == filter ==> !Compatible(r.players + [p]))
    && r.players != [] && r.host == r.players[0]
    && o.out != [] && o.out[0].conn == r.host.conn && o.out[0].event == CREATE_LOBBY
  }

  lemma GatheredWell(st: State, s: Search)
    requires Inv(st) && ValidSearch(s) && Gather(st, s).state.ids != st.ids
    ensures st.ids + 1 !in st.rooms && st.ids + 1 in Gather(st, s).state.rooms
    ensures WellOpened(Gather(st, s).state.rooms[st.ids + 1], st.waiting + [s], Gather(st, s), s.filter)
  {
    hide *;
    InvParts(st);
    NewIdsFresh(st);
    var q := st.waiting + [s];
    QueuedOk(st.waiting, s);
    GatherOpens(st, s);
    GreedyOk(q, s.filter);
    GreedyMaximal(q, s.filter);
    GroupWell(q, Greedy(q, s.filter), st.ids + 1, Gather(st, s), s.filter);
  }

  lemma QueuedOk(q: seq<Search>, s: Search)
    requires QueueOk(q) && ValidSearch(s)
    ensures QueueOk(q + [s])
  {
    hide ValidSearch;
  }

  lemma GroupWell(q: seq<Search>, g: Group, id: nat, o: Outcome, filter: string)
    requires GroupOk(q, filter, g) && g.picked != [] && g.minimum <= g.seats
    requires forall p :: p in q && p.filter == filter && p !in g.picked ==> !Compatible(g.picked + [p])
    requires o.state.waiting == Select(q, NotIn(g.picked))
    requires o.out != [] && o.out[0].conn == g.picked[0].conn && o.out[0].event == CREATE_LOBBY
    ensures WellOpened(NewRoom(id, g), q, o, filter)
  {
    forall p | p in o.state.waiting ensures p in q && p !in g.picked { SelectMember(q, NotIn(g.picked), p); }
    hide Thins, Compatible, Select, SeatSum;
  }

  lemma GatherNew(st: State, s: Search, id: nat)
    requires id in Gather(st, s).state.rooms && id !in st.rooms
    ensures id == st.ids + 1 && Gather(st, s).state.ids != st.ids
  {
    hide Greedy, Select;
  }

  /** Every room that any call opens: its people fill it to at least two and at least every
      member's minimum and at most every member's maximum; they come from the queue as it is once
      the searcher's old search is gone and the new one is in; the rest of that queue keeps its
      order; and nobody of the same filter left waiting could have been added. */
  lemma OpenedRoom(st: State, a: Action, id: nat)
    requires Inv(st) && TableKeyed(st) && Legal(a)
    ensures id in Step(st, a).state.rooms && id !in st.rooms ==>
      && a.Ask? && id == st.ids + 1
      && WellOpened(Step(st, a).state.rooms[id], Select(st.waiting, NotLedBy(a.s.conn.pid)) + [a.s], Step(st, a), a.s.filter)
  {
    if id in Step(st, a).state.rooms && id !in st.rooms {
      OnlyAskOpens(st, a, id);
      AskOpens(st, a.s, id);
    }
    hide Inv, Step, WellOpened;
  }

  lemma OnlyAskOpens(st: State, a: Action, id: nat)
    requires TableKeyed(st) && id in Step(st, a).state.rooms && id !in st.rooms
    ensures a.Ask?
  {
    hide Settle, StartMerge, Enqueue, Leave;
    match a
    case DrawId =>
    case Ask(s) =>
    case Withdraw(c, k) =>
    case Quit(c, k) => LeaveCalm(st, c, k);
    case HostSync(c, k, version, doc) => if Accepts(st, c, k, version, doc) { SyncOpensNone(st, c, k, version, doc); }
  }

  lemma SyncOpensNone(st: State, c: Conn, id: nat, version: nat, doc: HostDoc)
    requires TableKeyed(st) && Accepts(st, c, id, version, doc)
    ensures Sync(st, c, id, version, doc).state.rooms.Keys <= st.rooms.Keys
  {
    SettleOthers(st, id, doc);
    StartMergeOpensNone(Settle(st, id, doc).state, id);
    hide Settle, StartMerge;
  }

  lemma StartMergeOpensNone(st: State, id: nat)
    requires TableKeyed(st) && id in st.rooms
    ensures StartMerge(st, id).state.rooms.Keys <= st.rooms.Keys
  {
    hide MergeOpen, Candidates, Expected, Leads, Leader;
  }

  lemma EvictLeaves(st: State, pid: nat)
    ensures var e := Evict(st, pid);
      e.waiting == Select(st.waiting, NotLedBy(pid)) && e.ids == st.ids && e.rooms.Keys <= st.rooms.Keys
  {
  }

  lemma AskOpens(st: State, s: Search, id: nat)
    requires Inv(st) && TableKeyed(st) && ValidSearch(s) && id in Enqueue(st, s).state.rooms && id !in st.rooms
    ensures id == st.ids + 1
    ensures WellOpened(Enqueue(st, s).state.rooms[id], Select(st.waiting, NotLedBy(s.conn.pid)) + [s], Enqueue(st, s), s.filter)
  {
    var st1 := Evict(st, s.conn.pid);
    EvictKeeps(st, s.conn.pid);
    EvictLeaves(st, s.conn.pid);
    hide Evict, Select;
    InvKeyed(st1);
    var sel := Leader(st1, Admitting(st1, s));
    var st2 := Scanned(st1, sel);
    ScannedKeeps(st1, sel);
    ScannedKeepsPlayers(st1, sel);
    assert st2.ids == st.ids;
    assert sel !in st2.rooms by {
      hide Inv, Scanned, Gather, ValidSearch, WellOpened, Seat;
      if sel in st2.rooms {
        SeatSame(st2.rooms[sel], s);
        InvKeyed(st2);
      }
    }
    hide Inv, Scanned, Gather, ValidSearch, WellOpened;
    GatherNew(st2, s, id);
    GatheredWell(st2, s);
  }
}
