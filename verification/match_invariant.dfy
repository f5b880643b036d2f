/** The invariant of the matchmaker and its preservation by every step. */
module MatchInvariant {
  import opened Common
  import opened MatchTypes
  import opened MatchSteps

  /** Both tables are keyed by room id, ids come from the counter, no room is in both. */
  ghost predicate Keyed(st: State) {
    && (forall id :: id in st.rooms ==> 0 < id <= st.ids && st.rooms[id].id == id && st.rooms[id].target <= st.ids)
    && (forall id :: id in st.gone ==> 0 < id <= st.ids && st.gone[id].id == id)
    && st.rooms.Keys !! st.gone.Keys
  }

  ghost predicate SeatedWell(r: Room, p: Search) {
    && p.conn.pid != 0 && p.seats == |p.members| && |p.members| >= 1
    && 1 <= p.min <= p.max <= 8 && r.capacity <= p.max && p.filter == r.host.filter
  }

  /** One room: its host is seated, everyone shares its filter, nobody's limit is exceeded. */
  ghost predicate RoomOk(r: Room) {
    && (forall p :: p in r.players ==> SeatedWell(r, p))
    && r.host in r.players && r.host.conn.pid in r.host.members
    && r.capacity <= 8 && SeatSum(r.players) <= r.capacity && r.version >= 1
  }

  ghost predicate RoomsOk(st: State) { forall id :: id in st.rooms ==> RoomOk(st.rooms[id]) }

  ghost predicate QueueOk(q: seq<Search>) { forall p :: p in q ==> ValidSearch(p) }

  /** No account leads two searches across the queue and the live rooms. */
  ghost predicate LeadersOnce(st: State) {
    && Distinct(st.waiting)
    && (forall id :: id in st.rooms ==> Distinct(st.rooms[id].players) && Pids(st.waiting) !! Pids(st.rooms[id].players))
    && (forall a, b :: a in st.rooms && b in st.rooms && a != b ==> Pids(st.rooms[a].players) !! Pids(st.rooms[b].players))
  }

  /** A destination and the room it reserves seats for. */
  ghost predicate Paired(d: Room, s: Room) {
    && s.source == 0 && s.target == d.id && d.target == 0 && d.source == s.id && s.id != d.id
    && s.host.filter == d.host.filter
    && SeatSum(d.players) + SeatSum(s.players) <= Min(d.capacity, s.capacity)
  }

  ghost predicate Links(st: State) {
    && (forall id :: id in st.rooms && st.rooms[id].source != 0 ==>
          && (st.rooms[id].source in st.rooms || st.rooms[id].source in st.gone)
          && Paired(st.rooms[id], Find(st, st.rooms[id].source)))
    && (forall id :: id in st.rooms && st.rooms[id].target in st.rooms ==> st.rooms[st.rooms[id].target].source == id)
  }

  /** What holds even in the middle of a host sync. */
  ghost predicate Core(st: State) {
    && Keyed(st) && QueueOk(st.waiting) && LeadersOnce(st) && Links(st)
    && RoomsOk(st)
  }

  /** What holds between steps: in addition, no seated member is marked as failed. */
  ghost predicate Inv(st: State) {
    Core(st) && forall id :: id in st.rooms ==> NoneFailed(st.rooms[id])
  }

  // ---------- steps that only take things away ----------

  ghost predicate RoomShrinks(st: State, r: Room, r': Room) {
    && r'.id == r.id && r'.source == r.source && r'.capacity == r.capacity && r'.version == r.version
    && r'.host.filter == r.host.filter && r'.host.conn == r.host.conn
    && (r'.target == r.target || (r'.target == 0 && Stale(st, r)))
    && Thins(r.players, r'.players) && SeatSum(r'.players) <= SeatSum(r.players) && RoomOk(r')
  }

  /** Searches and rooms may go, room contents may shrink, stale targets may be forgotten. */
  ghost predicate Shrinks(st: State, st': State) {
    && st'.ids == st.ids
    && Thins(st.waiting, st'.waiting) && (forall p :: p in st'.waiting ==> p in st.waiting)
    && st'.rooms.Keys <= st.rooms.Keys
    && st'.gone.Keys == st.gone.Keys + (st.rooms.Keys - st'.rooms.Keys)
    && (forall k :: k in st.gone ==> st'.gone[k] == st.gone[k])
    && (forall k :: k in st.rooms && k !in st'.rooms ==> st'.gone[k] == st.rooms[k])
    && (forall k :: k in st'.rooms ==> RoomShrinks(st, st.rooms[k], st'.rooms[k]))
  }

  lemma ShrinkKeepsLinks(st: State, st': State)
    requires Keyed(st) && Links(st) && Shrinks(st, st')
    ensures Links(st')
  {
    forall id | id in st'.rooms && st'.rooms[id].source != 0
      ensures st'.rooms[id].source in st'.rooms || st'.rooms[id].source in st'.gone
      ensures Paired(st'.rooms[id], Find(st', st'.rooms[id].source))
    {
      assert RoomShrinks(st, st.rooms[id], st'.rooms[id]);
      var s := st.rooms[id].source;
      if s in st'.rooms { assert RoomShrinks(st, st.rooms[s], st'.rooms[s]); }
    }
    forall id | id in st'.rooms && st'.rooms[id].target in st'.rooms
      ensures st'.rooms[st'.rooms[id].target].source == id
    {
      assert RoomShrinks(st, st.rooms[id], st'.rooms[id]);
      var t := st'.rooms[id].target;
      assert RoomShrinks(st, st.rooms[t], st'.rooms[t]);
    }
  }

  lemma ShrinkKeepsLeaders(st: State, st': State)
    requires LeadersOnce(st) && Shrinks(st, st')
    ensures LeadersOnce(st')
  {
    forall id | id in st'.rooms
      ensures Distinct(st'.rooms[id].players) && Pids(st'.waiting) !! Pids(st'.rooms[id].players)
    {
      assert RoomShrinks(st, st.rooms[id], st'.rooms[id]);
    }
    forall a, b | a in st'.rooms && b in st'.rooms && a != b
      ensures Pids(st'.rooms[a].players) !! Pids(st'.rooms[b].players)
    {
      assert RoomShrinks(st, st.rooms[a], st'.rooms[a]);
      assert RoomShrinks(st, st.rooms[b], st'.rooms[b]);
    }
  }

  lemma ShrinkKeepsKeyed(st: State, st': State)
    requires Keyed(st) && Shrinks(st, st')
    ensures Keyed(st')
  {
    hide RoomShrinks, Thins;
    forall id | id in st'.rooms
      ensures 0 < id <= st'.ids && st'.rooms[id].id == id && st'.rooms[id].target <= st'.ids
    {
      ShrunkKeys(st, st.rooms[id], st'.rooms[id]);
    }
  }

  lemma ShrunkKeys(st: State, r: Room, r': Room)
    requires RoomShrinks(st, r, r')
    ensures r'.id == r.id && r'.source == r.source && r'.target <= r.target
  {
  }

  lemma ShrinkKeeps(st: State, st': State)
    requires Core(st) && Shrinks(st, st')
    ensures Core(st')
  {
    ShrinkKeepsKeyed(st, st');
    ShrinkKeepsLinks(st, st');
    ShrinkKeepsLeaders(st, st');
    assert QueueOk(st'.waiting);
    forall k | k in st'.rooms ensures RoomOk(st'.rooms[k]) {
      assert RoomShrinks(st, st.rooms[k], st'.rooms[k]);
    }
  }

  // ---------- evict, cancel, leave ----------

  lemma DropPlayerShrinks(st: State, r: Room, r': Room, hit: Search -> bool)
    requires RoomOk(r) && !hit(r.host)
    requires r' == r.(players := DropFirst(r.players, hit), notified := r'.notified)
    ensures RoomShrinks(st, r, r')
    ensures NoneFailed(r) ==> NoneFailed(r')
  {
    DropFirstThins(r.players, hit);
    DropFirstSeats(r.players, hit);
    assert forall m :: r'.Failed(m) == r.Failed(m);
  }

  lemma EvictFromShrinks(st: State, r: Room, pid: nat)
    requires RoomOk(r) && r.host.conn.pid != pid
    ensures RoomShrinks(st, r, EvictFrom(r, pid))
    ensures NoneFailed(r) ==> NoneFailed(EvictFrom(r, pid))
  {
    DropPlayerShrinks(st, r, EvictFrom(r, pid), LedBy(pid));
  }

  lemma EvictShrinks(st: State, pid: nat)
    requires Keyed(st) && RoomsOk(st)
    ensures Shrinks(st, Evict(st, pid))
  {
    hide RoomOk, RoomShrinks, EvictFrom, Thins;
    var st' := Evict(st, pid);
    SelectThins(st.waiting, NotLedBy(pid));
    forall id | id in st'.rooms ensures RoomShrinks(st, st.rooms[id], st'.rooms[id]) {
      EvictFromShrinks(st, st.rooms[id], pid);
    }
  }

  lemma EvictClears(st: State, pid: nat)
    requires LeadersOnce(st)
    ensures pid !in Pids(Evict(st, pid).waiting)
    ensures forall id :: id in Evict(st, pid).rooms ==> pid !in Pids(Evict(st, pid).rooms[id].players)
  {
    SelectThins(st.waiting, NotLedBy(pid));
    forall id | id in Evict(st, pid).rooms ensures pid !in Pids(Evict(st, pid).rooms[id].players) {
      EvictedIsGone(st.rooms[id], pid);
    }
  }

  lemma EvictStanding(st: State, pid: nat)
    requires RoomsOk(st) && forall id :: id in st.rooms ==> NoneFailed(st.rooms[id])
    ensures forall id :: id in Evict(st, pid).rooms ==> NoneFailed(Evict(st, pid).rooms[id])
  {
    hide NoneFailed, RoomOk, EvictFrom;
    forall id | id in Evict(st, pid).rooms ensures NoneFailed(Evict(st, pid).rooms[id]) {
      EvictFromShrinks(st, st.rooms[id], pid);
    }
  }

  lemma EvictKeeps(st: State, pid: nat)
    requires Inv(st)
    ensures Inv(Evict(st, pid))
    ensures pid !in Pids(Evict(st, pid).waiting)
    ensures forall id :: id in Evict(st, pid).rooms ==> pid !in Pids(Evict(st, pid).rooms[id].players)
  {
    hide Shrinks, RoomsOk, Keyed, LeadersOnce, Links, QueueOk, NoneFailed, Evict;
    EvictShrinks(st, pid);
    ShrinkKeeps(st, Evict(st, pid));
    EvictClears(st, pid);
    EvictStanding(st, pid);
  }

  lemma RoomsOkOf(st: State)
    requires Core(st)
    ensures RoomsOk(st) && Keyed(st)
  {
  }

  lemma EvictedIsGone(r: Room, pid: nat)
    requires Distinct(r.players)
    ensures pid !in Pids(EvictFrom(r, pid).players)
  {
    var i := First(r.players, LedBy(pid));
    var q := EvictFrom(r, pid).players;
    if i < |r.players| {
      assert forall k :: 0 <= k < |q| ==> q[k] == if k < i then r.players[k] else r.players[k+1];
      assert r.players[i].conn.pid == pid;
    }
    assert forall k :: 0 <= k < |q| ==> q[k].conn.pid != pid;
  }

  lemma CancelKeeps(st: State, c: Conn, id: nat)
    requires Inv(st)
    ensures Inv(Cancel(st, c, id)) && Shrinks(st, Cancel(st, c, id))
  {
    hide Core, NoneFailed, Shrinks;
    CancelShrinks(st, c, id);
    ShrinkKeeps(st, Cancel(st, c, id));
  }

  lemma CancelShrinks(st: State, c: Conn, id: nat)
    requires Core(st)
    ensures Shrinks(st, Cancel(st, c, id))
  {
    DropFirstThins(st.waiting, IsRequest(c, id));
    hide DropFirst, Keyed, QueueOk, LeadersOnce, Links, RoomOk;
    forall k | k in st.rooms ensures RoomShrinks(st, st.rooms[k], st.rooms[k]) { assert RoomOk(st.rooms[k]); }
    hide RoomShrinks;
  }

  lemma LeaveRoomShrinks(st: State, r: Room, c: Conn, id: nat)
    requires RoomOk(r) && !Disbands(r, c, id)
    ensures RoomShrinks(st, r, LeaveRoom(r, c, id))
    ensures NoneFailed(r) ==> NoneFailed(LeaveRoom(r, c, id))
  {
    if Concerns(id, r.id) { DropPlayerShrinks(st, r, LeaveRoom(r, c, id), OfConn(c)); }
  }

  lemma LeaveShrinks(st: State, c: Conn, id: nat)
    requires Keyed(st) && RoomsOk(st)
    ensures Shrinks(st, Leave(st, c, id))
  {
    hide RoomOk, RoomShrinks, LeaveRoom, Thins, Disbands;
    var st' := Leave(st, c, id);
    SelectThins(st.waiting, NotOfConn(c));
    forall k | k in st'.rooms ensures RoomShrinks(st, st.rooms[k], st'.rooms[k]) {
      LeaveRoomShrinks(st, st.rooms[k], c, id);
    }
  }

  lemma LeaveKeeps(st: State, c: Conn, id: nat)
    requires Inv(st)
    ensures Inv(Leave(st, c, id))
  {
    var st' := Leave(st, c, id);
    LeaveShrinks(st, c, id);
    ShrinkKeeps(st, st');
    forall k | k in st'.rooms ensures NoneFailed(st'.rooms[k]) {
      LeaveRoomShrinks(st, st.rooms[k], c, id);
    }
  }

  lemma ScannedShrinks(st: State, sel: nat)
    requires Keyed(st) && RoomsOk(st)
    ensures Shrinks(st, Scanned(st, sel))
  {
  }

  lemma ScannedKeeps(st: State, sel: nat)
    requires Inv(st)
    ensures Inv(Scanned(st, sel))
  {
    hide Core, NoneFailed, Shrinks, Scanned, Keyed, RoomsOk;
    InvParts(st);
    ScannedShrinks(st, sel);
    ShrinkKeeps(st, Scanned(st, sel));
    forall k | k in Scanned(st, sel).rooms ensures NoneFailed(Scanned(st, sel).rooms[k]) { ScannedFailed(st, sel, k); }
  }

  lemma ScannedFailed(st: State, sel: nat, k: nat)
    requires Inv(st) && k in Scanned(st, sel).rooms
    ensures NoneFailed(Scanned(st, sel).rooms[k])
  {
    hide Core;
    assert NoneFailed(st.rooms[k]);
    assert forall m :: Scanned(st, sel).rooms[k].Failed(m) == st.rooms[k].Failed(m);
  }

  // ---------- seating ----------

  lemma SeatRoomOk(r: Room, s: Search)
    requires RoomOk(r) && NoneFailed(r) && ValidSearch(s) && s.filter == r.host.filter
    requires OwnSeats(r) + s.seats <= Min(r.capacity, s.max)
    ensures RoomOk(Seat(r, s)) && NoneFailed(Seat(r, s))
  {
    var r' := Seat(r, s);
    TakenBound(r, r.players);
    SeatSumAppend(r.players, s);
    assert forall p :: p in r'.players <==> p in r.players || p == s;
    forall p, m | p in r'.players && m in p.members ensures !r'.Failed(m) {
      if p in r.players { assert !r.Failed(m); } else { assert m in MemberSet(s); }
    }
  }

  /** The queue and one unlinked room change; leaders stay apart. */
  ghost predicate Reseats(st: State, id: nat, q: seq<Search>, r': Room) {
    && id in st.rooms && r'.id == id
    && st.rooms[id].source == 0 && st.rooms[id].target == 0 && r'.source == 0 && r'.target == 0
    && RoomOk(r') && QueueOk(q) && Distinct(q) && Distinct(r'.players) && Pids(q) !! Pids(r'.players)
    && forall o :: o in st.rooms && o != id ==>
         Pids(q) !! Pids(st.rooms[o].players) && Pids(r'.players) !! Pids(st.rooms[o].players)
  }

  lemma ReseatLinks(st: State, id: nat, q: seq<Search>, r': Room)
    requires Keyed(st) && Links(st) && Reseats(st, id, q, r')
    ensures Links(WithRoom(st.(waiting := q), r'))
  {
    hide RoomOk, Distinct, QueueOk;
    var st' := WithRoom(st.(waiting := q), r');
    forall o | o in st'.rooms && st'.rooms[o].source != 0
      ensures st'.rooms[o].source in st'.rooms || st'.rooms[o].source in st'.gone
      ensures Paired(st'.rooms[o], Find(st', st'.rooms[o].source))
    {
      assert Paired(st.rooms[o], Find(st, st.rooms[o].source));
    }
  }

  lemma ReseatLeaders(st: State, id: nat, q: seq<Search>, r': Room)
    requires LeadersOnce(st) && Reseats(st, id, q, r')
    ensures LeadersOnce(WithRoom(st.(waiting := q), r'))
  {
    hide RoomOk, Distinct, QueueOk, Pids;
  }

  lemma ReseatKeeps(st: State, id: nat, q: seq<Search>, r': Room)
    requires Core(st) && Reseats(st, id, q, r')
    ensures Core(WithRoom(st.(waiting := q), r'))
  {
    hide Keyed, RoomsOk, LeadersOnce, QueueOk, Links, Reseats, WithRoom;
    ReseatLinks(st, id, q, r');
    ReseatLeaders(st, id, q, r');
    ReseatRooms(st, id, q, r');
  }

  lemma ReseatRooms(st: State, id: nat, q: seq<Search>, r': Room)
    requires Keyed(st) && RoomsOk(st) && Reseats(st, id, q, r')
    ensures var st' := WithRoom(st.(waiting := q), r'); Keyed(st') && RoomsOk(st') && QueueOk(st'.waiting)
  {
    hide RoomOk, Pids, Distinct, QueueOk;
  }

  // ---------- greedy grouping ----------

  /** The group's searches come from the queue, and its limits are theirs. */
  ghost predicate GroupOk(q: seq<Search>, filter: string, g: Group) {
    && Thins(q, g.picked) && (forall p :: p in g.picked ==> p in q && p.filter == filter)
    && SeatSum(g.picked) == g.seats <= g.maximum <= 8 && 2 <= g.minimum <= g.maximum
    && forall p :: p in g.picked ==> p.min <= g.minimum && g.maximum <= p.max
  }

  lemma ConsiderOk(q0: seq<Search>, p: Search, filter: string, g: Group)
    requires GroupOk(q0, filter, g) && ValidSearch(p)
    ensures GroupOk(q0 + [p], filter, Consider(g, p, filter))
  {
    PidsAppend(q0, p);
    PidsAppend(g.picked, p);
    SeatSumAppend(g.picked, p);
    hide Distinct, Pids, SeatSum;
    assert forall x :: x in q0 + [p] <==> x in q0 || x == p;
    assert forall x :: x in g.picked + [p] <==> x in g.picked || x == p;
  }

  lemma {:induction false} GreedyOk(q: seq<Search>, filter: string)
    requires QueueOk(q)
    ensures GroupOk(q, filter, Greedy(q, filter))
  {
    if q == [] {
      assert Pids([]) == {};
    } else {
      var q0, p := q[..|q|-1], q[|q|-1];
      assert q == q0 + [p];
      GreedyOk(q0, filter);
      hide GroupOk;
      ConsiderOk(q0, p, filter, Greedy(q0, filter));
    }
  }

  lemma {:induction false} SameLeaderSameSearch(q: seq<Search>, a: Search, b: Search)
    requires Distinct(q) && a in q && b in q && a.conn.pid == b.conn.pid
    ensures a == b
  {
    var i :| 0 <= i < |q| && q[i] == a;
    var j :| 0 <= j < |q| && q[j] == b;
  }

  /** Picked and remaining searches share no leader. */
  lemma PickedApart(q: seq<Search>, picked: seq<Search>)
    requires Distinct(q) && forall p :: p in picked ==> p in q
    ensures Pids(Select(q, NotIn(picked))) !! Pids(picked)
  {
    var rest := Select(q, NotIn(picked));
    SelectThins(q, NotIn(picked));
    forall a, b | a in rest && b in picked ensures a.conn.pid != b.conn.pid {
      if a.conn.pid == b.conn.pid { SameLeaderSameSearch(q, a, b); }
    }
  }

  lemma NewRoomOk(q: seq<Search>, filter: string, id: nat)
    requires QueueOk(q)
    requires Greedy(q, filter).picked != []
    ensures RoomOk(NewRoom(id, Greedy(q, filter))) && NoneFailed(NewRoom(id, Greedy(q, filter)))
  {
    GreedyOk(q, filter);
    var g := Greedy(q, filter);
    var r := NewRoom(id, g);
    assert r.host == g.picked[0] && r.host in g.picked;
    assert forall m :: !r.Failed(m);
  }

  lemma OpenKeeps(st: State, q: seq<Search>, r: Room)
    requires Core(st) && r.id == st.ids + 1 && r.source == 0 && r.target == 0 && RoomOk(r)
    requires QueueOk(q) && Distinct(q) && Distinct(r.players) && Pids(q) !! Pids(r.players)
    requires forall o :: o in st.rooms ==>
      Pids(q) !! Pids(st.rooms[o].players) && Pids(r.players) !! Pids(st.rooms[o].players)
    ensures Core(State(q, st.rooms[r.id := r], st.gone, st.ids + 1))
  {
    hide RoomOk, QueueOk, Pids, Distinct;
    OpenLinks(st, q, r);
    var st' := State(q, st.rooms[r.id := r], st.gone, st.ids + 1);
    assert Keyed(st') && RoomsOk(st') by { hide Links, LeadersOnce; }
    hide Links, Keyed, RoomsOk;
    assert LeadersOnce(st');
  }

  lemma OpenLinks(st: State, q: seq<Search>, r: Room)
    requires Keyed(st) && Links(st) && r.id == st.ids + 1 && r.source == 0 && r.target == 0
    ensures Links(State(q, st.rooms[r.id := r], st.gone, st.ids + 1))
  {
    var st' := State(q, st.rooms[r.id := r], st.gone, st.ids + 1);
    forall o | o in st'.rooms && st'.rooms[o].source != 0
      ensures st'.rooms[o].source in st'.rooms || st'.rooms[o].source in st'.gone
      ensures Paired(st'.rooms[o], Find(st', st'.rooms[o].source))
    {
      assert Paired(st.rooms[o], Find(st, st.rooms[o].source));
    }
  }

  lemma QueuedKeeps(st: State, s: Search)
    requires Inv(st) && ValidSearch(s) && s.conn.pid !in Pids(st.waiting)
    requires forall o :: o in st.rooms ==> s.conn.pid !in Pids(st.rooms[o].players)
    ensures Inv(st.(waiting := st.waiting + [s]))
  {
    PidsAppend(st.waiting, s);
    var st' := st.(waiting := st.waiting + [s]);
    assert LeadersOnce(st');
    assert Links(st') by {
      forall o | o in st'.rooms && st'.rooms[o].source != 0
        ensures Paired(st'.rooms[o], Find(st', st'.rooms[o].source)) {
        assert Find(st', st'.rooms[o].source) == Find(st, st.rooms[o].source);
      }
    }
  }

  lemma PickedPids(st: State, q: seq<Search>, picked: seq<Search>)
    requires LeadersOnce(st) && Thins(st.waiting, q) && Thins(st.waiting, picked)
    ensures Distinct(q) && Distinct(picked)
    ensures forall o :: o in st.rooms ==> Pids(q) !! Pids(st.rooms[o].players) && Pids(picked) !! Pids(st.rooms[o].players)
  {
    hide Pids, Distinct;
  }

  lemma LaunchedKeeps(st: State, filter: string)
    requires Inv(st) && Greedy(st.waiting, filter).picked != []
    ensures Inv(Launched(st, Greedy(st.waiting, filter)).state)
  {
    hide RoomsOk, Distinct, Links, Greedy, Select, Keyed, ValidSearch, LeadersOnce, NewRoom, RoomOk, NoneFailed;
    var g := Greedy(st.waiting, filter);
    var q := Select(st.waiting, NotIn(g.picked));
    var r := NewRoom(st.ids + 1, g);
    GreedyOk(st.waiting, filter);
    SelectThins(st.waiting, NotIn(g.picked));
    hide Pids;
    assert Distinct(st.waiting) by { QueueDistinct(st); }
    PickedApart(st.waiting, g.picked);
    PickedPids(st, q, g.picked);
    NewRoomOk(st.waiting, filter, st.ids + 1);
    assert r.id == st.ids + 1 && r.source == 0 && r.target == 0 && r.players == g.picked by { NewRoomIs(st.ids + 1, g); }
    OpenKeeps(st, q, r);
  }

  lemma NewRoomIs(id: nat, g: Group)
    requires g.picked != []
    ensures var r := NewRoom(id, g); r.id == id && r.source == 0 && r.target == 0 && r.players == g.picked
  {
  }

  lemma QueueDistinct(st: State)
    requires LeadersOnce(st)
    ensures Distinct(st.waiting)
  {
  }

  lemma GatherKeeps(st: State, s: Search)
    requires Inv(st) && ValidSearch(s) && s.conn.pid !in Pids(st.waiting)
    requires forall o :: o in st.rooms ==> s.conn.pid !in Pids(st.rooms[o].players)
    ensures Inv(Gather(st, s).state)
  {
    QueuedKeeps(st, s);
    hide Inv, Launched, Greedy;
    var st1 := st.(waiting := st.waiting + [s]);
    if Greedy(st1.waiting, s.filter).picked != [] { LaunchedKeeps(st1, s.filter); }
  }

  lemma SeatNewKeeps(st: State, id: nat, s: Search)
    requires Inv(st) && ValidSearch(s) && id in st.rooms
    requires s.conn.pid !in Pids(st.waiting) && forall o :: o in st.rooms ==> s.conn.pid !in Pids(st.rooms[o].players)
    requires st.rooms[id].target == 0 && st.rooms[id].source == 0 && s.filter == st.rooms[id].host.filter
    requires OwnSeats(st.rooms[id]) + s.seats <= Min(st.rooms[id].capacity, s.max)
    ensures Inv(WithRoom(st, Bump(Seat(st.rooms[id], s))))
  {
    var r := st.rooms[id];
    var r' := Bump(Seat(r, s));
    SeatRoomOk(r, s);
    PidsAppend(r.players, s);
    assert RoomOk(r');
    assert NoneFailed(r') by { assert forall m :: r'.Failed(m) == Seat(r, s).Failed(m); }
    ReseatKeeps(st, id, st.waiting, r');
    assert st.(waiting := st.waiting) == st;
  }

  lemma SourceFreeOccupancy(st: State, r: Room)
    requires Keyed(st) && r.source == 0
    ensures Occupancy(st, r) == OwnSeats(r)
  {
  }

  lemma InvKeyed(st: State)
    requires Inv(st)
    ensures TableKeyed(st) && Keyed(st)
  {
  }

  lemma InvParts(st: State)
    requires Inv(st)
    ensures TableKeyed(st) && Core(st) && Keyed(st) && QueueOk(st.waiting) && LeadersOnce(st) && Links(st) && RoomsOk(st)
  {
    hide QueueOk, LeadersOnce, Links, RoomsOk, NoneFailed;
  }

  /** What the invariant says of one room. */
  lemma InvAt(st: State, id: nat)
    requires Inv(st) && id in st.rooms
    ensures st.rooms[id].id == id && st.rooms[id].version >= 1 && RoomOk(st.rooms[id]) && NoneFailed(st.rooms[id])
    ensures Distinct(st.waiting) && Distinct(st.rooms[id].players) && Pids(st.waiting) !! Pids(st.rooms[id].players)
  {
    hide QueueOk, Links, NoneFailed, Pids, Distinct;
    assert RoomOk(st.rooms[id]);
  }

  lemma ReseatInv(st: State, id: nat, q: seq<Search>, r': Room)
    requires Inv(st) && Reseats(st, id, q, r') && NoneFailed(r')
    ensures Inv(WithRoom(st.(waiting := q), r'))
  {
    ReseatKeeps(st, id, q, r');
    hide Core, Reseats, NoneFailed;
  }

  lemma EnqueueKeeps(st: State, s: Search)
    requires Inv(st) && ValidSearch(s)
    ensures Inv(Enqueue(st, s).state)
  {
    hide Inv, Pids, Evict, ValidSearch, Keyed, Scanned, Occupancy, OwnSeats, Gather, Seat, Bump, WithRoom;
    InvKeyed(st);
    var st1 := Evict(st, s.conn.pid);
    EvictKeeps(st, s.conn.pid);
    InvKeyed(st1);
    var sel := Leader(st1, Admitting(st1, s));
    var st2 := Scanned(st1, sel);
    ScannedKeeps(st1, sel);
    ScannedKeepsPlayers(st1, sel);
    if sel in st2.rooms {
      assert Admits(st1, st1.rooms[sel], s);
      SourceFreeOccupancy(st1, st1.rooms[sel]);
      ScannedSelected(st1, sel, s);
      SeatNewKeeps(st2, sel, s);
    } else {
      GatherKeeps(st2, s);
    }
  }

  lemma ScannedKeepsPlayers(st: State, sel: nat)
    ensures Scanned(st, sel).waiting == st.waiting && Scanned(st, sel).rooms.Keys == st.rooms.Keys
    ensures forall o :: o in st.rooms ==> Scanned(st, sel).rooms[o].players == st.rooms[o].players
  {
  }

  /** The selected room itself is scanned, so its stale target is gone. */
  lemma ScannedSelected(st: State, sel: nat, s: Search)
    requires Keyed(st) && sel in st.rooms && Admits(st, st.rooms[sel], s)
    ensures Scanned(st, sel).rooms[sel] == st.rooms[sel].(target := 0)
    ensures OwnSeats(Scanned(st, sel).rooms[sel]) == OwnSeats(st.rooms[sel])
  {
    TargetIrrelevant(st.rooms[sel], 0, st.rooms[sel].players);
  }

  lemma {:induction false} TargetIrrelevant(r: Room, t: nat, q: seq<Search>)
    ensures Taken(r.(target := t), q) == Taken(r, q)
  {
    if q != [] {
      TargetIrrelevant(r, t, q[..|q|-1]);
      TargetIrrelevantMembers(r, t, q[|q|-1].members);
    }
  }

  lemma {:induction false} TargetIrrelevantMembers(r: Room, t: nat, ms: seq<nat>)
    ensures Standing(r.(target := t), ms) == Standing(r, ms)
  {
    if ms != [] { TargetIrrelevantMembers(r, t, ms[..|ms|-1]); }
  }
}
