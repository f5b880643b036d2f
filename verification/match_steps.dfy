/** What each matchmaker call does to the state, as functions of the state before it
    (ctr_async.go:217-486, ctr_merge.go). The classes in match_class.dfy are proved to do
    exactly this; the invariants and run theorems are proved about these functions. */
module MatchSteps {
  import opened Common
  import opened MatchTypes

  /** A step's new state and the notices it returns. */
  datatype Outcome = Outcome(state: State, out: seq<Notice>)

  // ---------- reading rooms ----------

  function PlayersOf(st: State, id: nat): seq<Search> {
    if id in st.rooms then st.rooms[id].players else if id in st.gone then st.gone[id].players else []
  }

  /** The room an id denotes, live or not. */
  function Find(st: State, id: nat): Room
    requires id in st.rooms || id in st.gone
  {
    if id in st.rooms then st.rooms[id] else st.gone[id]
  }

  function OwnSeats(r: Room): nat { Taken(r, r.players) }

  /** People in the room plus those a pending merge reserves seats for. */
  function Occupancy(st: State, r: Room): nat {
    OwnSeats(r) + if r.source in st.rooms || r.source in st.gone then OwnSeats(Find(st, r.source)) else 0
  }

  /** The accounts the backend document lists as expected. */
  function Expected(st: State, r: Room): set<nat> {
    set p, m | p in r.players + PlayersOf(st, r.source) && m in p.members && !r.Failed(m) :: m
  }

  function UpdateNotice(st: State, r: Room): Notice {
    Notice(r.host.conn, UPDATE_LOBBY, [r.id, r.version], Expected(st, r))
  }

  /** Fuller rooms first, older ones first among equals. */
  predicate Before(st: State, a: Room, b: Room) {
    Occupancy(st, a) > Occupancy(st, b) || (Occupancy(st, a) == Occupancy(st, b) && a.id < b.id)
  }

  function WithRoom(st: State, r: Room): State {
    st.(rooms := st.rooms[r.id := r])
  }

  // ---------- searches ----------

  /** What parsing a search request guarantees (ctr_async.go:75-118). */
  predicate ValidSearch(s: Search) {
    && s.conn.pid != 0 && 1 <= |s.members| <= 8
    && 1 <= s.min <= s.max <= 8 && |s.members| <= s.max
    && (forall i, j :: 0 <= i < j < |s.members| ==> s.members[i] != s.members[j])
    && 0 !in s.members && s.conn.pid in s.members
    && s.seats == |s.members| && s.filter != ""
  }

  // ---------- enqueue ----------

  function EvictFrom(r: Room, pid: nat): Room {
    var i := First(r.players, LedBy(pid));
    if i < |r.players| then r.(players := Without(r.players, i), notified := r.notified - {r.players[i].conn}) else r
  }

  /** An account that searches again is in no room any more; a room it hosted is gone. */
  function Evict(st: State, pid: nat): State {
    State(
      Select(st.waiting, NotLedBy(pid)),
      map id | id in st.rooms && st.rooms[id].host.conn.pid != pid :: EvictFrom(st.rooms[id], pid),
      st.gone + (map id | id in st.rooms && st.rooms[id].host.conn.pid == pid :: st.rooms[id]),
      st.ids)
  }

  /** The merge destination has left the table. */
  predicate Stale(st: State, r: Room) { r.target != 0 && r.target !in st.rooms }

  /** The room is open to `s`, suits it and has the seats. */
  predicate Vacant(st: State, r: Room, s: Search) {
    && r.source == 0 && r.open && r.host.filter == s.filter
    && Occupancy(st, r) + s.seats <= r.capacity && Occupancy(st, r) + s.seats <= s.max
  }

  predicate Admits(st: State, r: Room, s: Search) {
    (r.target == 0 || Stale(st, r)) && Vacant(st, r, s)
  }

  /** `id` comes first among the rooms in `ids`. */
  ghost predicate Leads(st: State, ids: set<nat>, id: nat) {
    id in ids && forall o :: o in ids && o != id && o in st.rooms && id in st.rooms ==> Before(st, st.rooms[id], st.rooms[o])
  }

  /** Among finitely many rooms one comes first in the search order. */
  lemma {:induction false} FirstExists(st: State, ids: set<nat>)
    requires ids != {} && ids <= st.rooms.Keys
    requires forall id :: id in st.rooms ==> st.rooms[id].id == id
    ensures exists id :: Leads(st, ids, id)
    decreases |ids|
  {
    var x :| x in ids;
    if ids == {x} {
      assert Leads(st, ids, x);
    } else {
      FirstExists(st, ids - {x});
      var y :| Leads(st, ids - {x}, y);
      if Before(st, st.rooms[x], st.rooms[y]) {
        assert Leads(st, ids, x);
      } else {
        assert Leads(st, ids, y);
      }
    }
  }

  ghost predicate TableKeyed(st: State) { forall id :: id in st.rooms ==> st.rooms[id].id == id }

  ghost function Leader(st: State, ids: set<nat>): (id: nat)
    requires TableKeyed(st) && ids <= st.rooms.Keys
    ensures ids == {} ==> id == 0
    ensures ids != {} ==> Leads(st, ids, id)
  {
    if ids == {} then 0 else
      FirstExists(st, ids);
      var id: nat :| Leads(st, ids, id);
      id
  }

  function Admitting(st: State, s: Search): set<nat> {
    set id | id in st.rooms && Admits(st, st.rooms[id], s)
  }

  /** The scan over the sorted rooms forgets stale merge targets until it selects a room. */
  function Scanned(st: State, sel: nat): State {
    st.(rooms := map id | id in st.rooms ::
      if Stale(st, st.rooms[id]) && !(sel in st.rooms && Before(st, st.rooms[sel], st.rooms[id]))
      then st.rooms[id].(target := 0) else st.rooms[id])
  }

  function MemberSet(s: Search): set<nat> { set m | m in s.members }

  /** Seats `s` in the room; an earlier failure of one of its members is forgotten. */
  function Seat(r: Room, s: Search): Room {
    r.(states := r.states - MemberSet(s), players := r.players + [s], capacity := Min(r.capacity, s.max))
  }

  function Bump(r: Room): Room { r.(version := r.version + 1) }

  /** A group being collected from the queue, with the slot limits its members agree on. */
  datatype Group = Group(picked: seq<Search>, seats: nat, minimum: nat, maximum: nat)

  function Consider(g: Group, p: Search, filter: string): Group {
    var lo, hi := Max(g.minimum, p.min), Min(g.maximum, p.max);
    if p.filter != filter || lo > hi || g.seats + p.seats > hi then g
    else Group(g.picked + [p], g.seats + p.seats, lo, hi)
  }

  function Greedy(q: seq<Search>, filter: string): Group {
    if q == [] then Group([], 0, 2, 8) else Consider(Greedy(q[..|q|-1], filter), q[|q|-1], filter)
  }

  function NewRoom(id: nat, g: Group): Room
    requires g.picked != []
  {
    Room(id, 1, g.picked[0], g.picked, true, map[], g.maximum, {g.picked[0].conn}, 0, 0)
  }

  /** The group leaves the queue and its first search is asked to host a new lobby. */
  function Launched(st: State, g: Group): Outcome
    requires g.picked != []
  {
    var r := NewRoom(st.ids + 1, g);
    var st' := State(Select(st.waiting, NotIn(g.picked)), st.rooms[r.id := r], st.gone, st.ids + 1);
    Outcome(st', [Notice(r.host.conn, CREATE_LOBBY, [r.host.id, r.id, r.version], Expected(st', r))])
  }

  /** Queues `s` and opens a room when the greedy group has enough players. */
  function Gather(st: State, s: Search): Outcome {
    var st1 := st.(waiting := st.waiting + [s]);
    var g := Greedy(st1.waiting, s.filter);
    if g.seats < g.minimum || g.picked == [] then Outcome(st1, []) else Launched(st1, g)
  }

  /** Seats `s` in the selected room, or queues it. */
  function Place(st: State, sel: nat, s: Search): Outcome {
    if sel !in st.rooms then Gather(st, s) else
      var r := Bump(Seat(st.rooms[sel], s));
      Outcome(WithRoom(st, r), [UpdateNotice(WithRoom(st, r), r)])
  }

  ghost function Enqueue(st: State, s: Search): Outcome
    requires TableKeyed(st)
  {
    var st1 := Evict(st, s.conn.pid);
    var sel := Leader(st1, Admitting(st1, s));
    Place(Scanned(st1, sel), sel, s)
  }

  // ---------- cancel and leave ----------

  function Cancel(st: State, c: Conn, id: nat): State {
    st.(waiting := DropFirst(st.waiting, IsRequest(c, id)))
  }

  predicate Concerns(id: nat, room: nat) { id == 0 || room == id }

  /** The room `k` disbands when its host leaves it. */
  predicate Disbands(r: Room, c: Conn, id: nat) { Concerns(id, r.id) && r.host.conn == c }

  function LeaveRoom(r: Room, c: Conn, id: nat): Room {
    if Concerns(id, r.id) then r.(players := DropFirst(r.players, OfConn(c))) else r
  }

  /** `id` 0 means every room. A leaving host takes its room along. */
  function Leave(st: State, c: Conn, id: nat): State {
    State(
      Select(st.waiting, NotOfConn(c)),
      map k | k in st.rooms && !Disbands(st.rooms[k], c, id) :: LeaveRoom(st.rooms[k], c, id),
      st.gone + (map k | k in st.rooms && Disbands(st.rooms[k], c, id) :: st.rooms[k]),
      st.ids)
  }

  // ---------- merging ----------

  predicate MergeOpen(st: State, r: Room) {
    r.open && JoinedIn(r, r.players) == Occupancy(st, r) && Occupancy(st, r) > 0
  }

  ghost predicate DisjointParties(a: seq<Search>, b: seq<Search>) {
    forall p, q, m :: p in a && q in b && m in p.members ==> m !in q.members
  }

  ghost predicate CanAbsorb(st: State, dst: Room, src: Room) {
    && src.id != dst.id && src.target == 0 && src.source == 0 && MergeOpen(st, src)
    && src.host.filter == dst.host.filter
    && Before(st, dst, src)
    && Occupancy(st, src) + Occupancy(st, dst) <= Min(src.capacity, dst.capacity)
    && DisjointParties(src.players, dst.players)
  }

  ghost function Candidates(st: State, dst: Room): set<nat> {
    set id | id in st.rooms && CanAbsorb(st, dst, st.rooms[id])
  }

  function AllMembers(q: seq<Search>): set<nat> { set p, m | p in q && m in p.members :: m }

  function Forget(st: State, id: nat): State
    requires id in st.rooms
  {
    if Stale(st, st.rooms[id]) then WithRoom(st, st.rooms[id].(target := 0)) else st
  }

  function Reserved(dst: Room, src: Room): Room {
    dst.(source := src.id, states := dst.states - AllMembers(src.players), version := dst.version + 1)
  }

  ghost function StartMerge(st0: State, id: nat): Outcome
    requires TableKeyed(st0) && id in st0.rooms
  {
    var st := Forget(st0, id);
    var dst := st.rooms[id];
    if dst.target != 0 || dst.source != 0 || !MergeOpen(st, dst) then Outcome(st, []) else
      var best := Leader(st, Candidates(st, dst));
      if best !in st.rooms then Outcome(st, []) else
        var st' := WithRoom(WithRoom(st, st.rooms[best].(target := id)), Reserved(dst, st.rooms[best]));
        Outcome(st', [UpdateNotice(st', st'.rooms[id])])
  }

  ghost predicate MergeStands(st: State, dst: Room, src: Room) {
    && src.id in st.rooms && src.target == dst.id && dst.open && MergeOpen(st, src)
    && DisjointParties(dst.players, src.players)
    && forall p, m :: p in src.players && m in p.members ==> dst.Status(m) != TIMED_OUT
  }

  function Absorbed(dst: Room, src: Room): Room {
    dst.(source := 0, capacity := Min(dst.capacity, src.capacity), players := dst.players + src.players,
         notified := dst.notified + Conns(src.players))
  }

  /** The merge event for each moved search: its id, the old lobby, the new lobby. */
  function MergeNotices(q: seq<Search>, from: nat, into: nat, expected: set<nat>): (out: seq<Notice>)
    ensures |out| == |q|
    ensures forall i :: 0 <= i < |q| ==> out[i] == Notice(q[i].conn, MERGE_LOBBY, [q[i].id, from, into], expected)
  {
    seq(|q|, i requires 0 <= i < |q| => Notice(q[i].conn, MERGE_LOBBY, [q[i].id, from, into], expected))
  }

  /** Drops the reservation on both sides; the source may have left the table already. */
  function CancelMerge(st: State, id: nat): State
    requires id in st.rooms
  {
    var dst := st.rooms[id];
    var src := dst.source;
    var dst' := dst.(source := 0, version := dst.version + 1);
    st.(rooms := (map k | k in st.rooms :: if k == id then dst' else if k == src then st.rooms[k].(target := 0) else st.rooms[k]),
        gone := map k | k in st.gone :: if k == src && src !in st.rooms then st.gone[k].(target := 0) else st.gone[k])
  }

  function CommitMerge(st: State, id: nat): State
    requires id in st.rooms && st.rooms[id].source in st.rooms
  {
    var dst := st.rooms[id];
    var src := st.rooms[dst.source];
    st.(rooms := (st.rooms - {dst.source})[id := Absorbed(dst, src)], gone := st.gone[dst.source := src])
  }

  ghost function FinishMerge(st: State, id: nat): (o: Outcome)
    requires TableKeyed(st) && id in st.rooms
    ensures id in o.state.rooms && TableKeyed(o.state)
  {
    var dst := st.rooms[id];
    if dst.source !in st.rooms && dst.source !in st.gone then Outcome(st, []) else
      var src := Find(st, dst.source);
      if src.id == dst.source && dst.source in st.rooms && MergeStands(st, dst, src) then
        var st' := CommitMerge(st, id);
        Outcome(st', MergeNotices(src.players, src.id, dst.id, Expected(st', Absorbed(dst, src))))
      else
        var st' := CancelMerge(st, id);
        Outcome(st', [UpdateNotice(st', st'.rooms[id])])
  }

  // ---------- host sync ----------

  function StandingMembers(r: Room, ms: seq<nat>): seq<nat> {
    if ms == [] then []
    else StandingMembers(r, ms[..|ms|-1]) + if r.Failed(ms[|ms|-1]) then [] else [ms[|ms|-1]]
  }

  function Trim(r: Room, p: Search): Search {
    var ms := StandingMembers(r, p.members);
    p.(members := ms, seats := |ms|)
  }

  function TrimAll(r: Room, q: seq<Search>): seq<Search> {
    if q == [] then []
    else TrimAll(r, q[..|q|-1]) + if Trim(r, q[|q|-1]).members == [] then [] else [Trim(r, q[|q|-1])]
  }

  function Rejected(r: Room, q: seq<Search>): set<Conn> {
    set p | p in q && Trim(r, p).members == [] :: p.conn
  }

  /** Removes the members the host reported as failed, and searches left without any. */
  function Reject(r: Room): Room {
    r.(players := TrimAll(r, r.players), notified := r.notified - Rejected(r, r.players),
       host := if r.host in r.players && Trim(r, r.host).members != [] then Trim(r, r.host) else r.host)
  }

  /** The searches not told to join yet, one per connection. */
  function Unreleased(q: seq<Search>, told: set<Conn>): seq<Search> {
    if q == [] then []
    else
      var q0, p := q[..|q|-1], q[|q|-1];
      Unreleased(q0, told) + if p.conn in told || p.conn in Conns(q0) then [] else [p]
  }

  function JoinNotices(q: seq<Search>, room: nat, expected: set<nat>): (out: seq<Notice>)
    ensures |out| == |q|
    ensures forall i :: 0 <= i < |q| ==> out[i] == Notice(q[i].conn, JOIN_LOBBY, [q[i].id, room], expected)
  {
    seq(|q|, i requires 0 <= i < |q| => Notice(q[i].conn, JOIN_LOBBY, [q[i].id, room], expected))
  }

  function Release(st: State, id: nat): (o: Outcome)
    requires id in st.rooms
    ensures TableKeyed(st) ==> TableKeyed(o.state) && id in o.state.rooms
  {
    var r := st.rooms[id];
    Outcome(WithRoom(st, r.(notified := r.notified + Conns(r.players))),
            JoinNotices(Unreleased(r.players, r.notified), r.id, Expected(st, r)))
  }

  datatype Fill = Fill(room: Room, rest: seq<Search>, added: seq<Search>)

  predicate Fits(r: Room, p: Search) {
    p.filter == r.host.filter && OwnSeats(r) + p.seats <= Min(r.capacity, p.max)
  }

  /** Offers the free seats to the queue in order. */
  function FillFrom(r: Room, q: seq<Search>): Fill {
    if q == [] then Fill(r, [], [])
    else
      var f, p := FillFrom(r, q[..|q|-1]), q[|q|-1];
      if Fits(f.room, p) then Fill(Seat(f.room, p), f.rest, f.added + [p]) else f.(rest := f.rest + [p])
  }

  lemma {:induction false} FillKeepsId(r: Room, q: seq<Search>)
    ensures FillFrom(r, q).room.id == r.id
  {
    if q != [] { FillKeepsId(r, q[..|q|-1]); }
  }

  function Backfill(st: State, id: nat): (o: Outcome)
    requires id in st.rooms
    ensures TableKeyed(st) ==> TableKeyed(o.state) && id in o.state.rooms
  {
    var r := st.rooms[id];
    FillKeepsId(r, st.waiting);
    if !r.open || r.target != 0 || r.source != 0 then Outcome(st, []) else
      var f := FillFrom(r, st.waiting);
      if f.added == [] then Outcome(st.(waiting := f.rest), []) else
        var st' := WithRoom(st.(waiting := f.rest), Bump(f.room));
        Outcome(st', [UpdateNotice(st', Bump(f.room))])
  }

  predicate Accepts(st: State, c: Conn, id: nat, version: nat, doc: HostDoc) {
    doc.HostDoc? && doc.complete && id in st.rooms && st.rooms[id].host.conn == c && st.rooms[id].version == version
  }

  function Adopt(st: State, id: nat, doc: HostDoc): State
    requires id in st.rooms && doc.HostDoc?
  {
    WithRoom(st, st.rooms[id].(open := doc.open, states := doc.states))
  }

  /** finishMerge, rejection, release and backfill of an accepted sync, in the code's order. */
  ghost function Settle(st: State, id: nat, doc: HostDoc): (o: Outcome)
    requires TableKeyed(st) && id in st.rooms && doc.HostDoc?
    ensures id in o.state.rooms && TableKeyed(o.state)
  {
    var a := FinishMerge(Adopt(st, id, doc), id);
    var b := WithRoom(a.state, Reject(a.state.rooms[id]));
    var c := Release(b, id);
    var d := Backfill(c.state, id);
    Outcome(d.state, a.out + c.out + d.out)
  }

  ghost function Sync(st: State, c: Conn, id: nat, version: nat, doc: HostDoc): Outcome
    requires TableKeyed(st)
  {
    if !Accepts(st, c, id, version, doc) then Outcome(st, []) else
      var o := Settle(st, id, doc);
      if o.out == [] then StartMerge(o.state, id) else o
  }
}
