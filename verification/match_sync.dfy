/** Preservation of the invariant by a host sync and the two-phase merge inside it. */
module MatchSync {
  import opened MatchTypes
  import opened MatchSteps
  import opened MatchInvariant

  /** The invariant in the middle of a sync of room `id`, whose new document may report failures. */
  ghost predicate Almost(st: State, id: nat) {
    Core(st) && id in st.rooms && forall o :: o in st.rooms && o != id ==> NoneFailed(st.rooms[o])
  }

  lemma WithRoomShrinks(st: State, r: Room)
    requires Keyed(st) && RoomsOk(st) && r.id in st.rooms && RoomShrinks(st, st.rooms[r.id], r)
    ensures Shrinks(st, WithRoom(st, r))
  {
    forall k | k in st.rooms && k != r.id ensures RoomShrinks(st, st.rooms[k], st.rooms[k]) {
      assert RoomOk(st.rooms[k]);
    }
  }

  lemma UpdateKeeps(st: State, id: nat, r: Room)
    requires Almost(st, id) && r.id == id && RoomShrinks(st, st.rooms[id], r)
    ensures Almost(WithRoom(st, r), id)
  {
    WithRoomShrinks(st, r);
    ShrinkKeeps(st, WithRoom(st, r));
    hide Core, NoneFailed, RoomShrinks;
  }

  lemma AdoptKeeps(st: State, id: nat, doc: HostDoc)
    requires Inv(st) && id in st.rooms && doc.HostDoc?
    ensures Almost(Adopt(st, id, doc), id)
  {
    var r := st.rooms[id];
    assert RoomShrinks(st, r, r.(open := doc.open, states := doc.states));
    UpdateKeeps(st, id, r.(open := doc.open, states := doc.states));
  }

  // ---------- cancelling and committing a merge ----------

  lemma CancelLinks(st: State, id: nat)
    requires Keyed(st) && Links(st) && id in st.rooms && st.rooms[id].source != 0
    ensures Links(CancelMerge(st, id))
  {
    var st' := CancelMerge(st, id);
    var src := st.rooms[id].source;
    assert Paired(st.rooms[id], Find(st, src));
    forall d | d in st'.rooms && st'.rooms[d].source != 0
      ensures st'.rooms[d].source in st'.rooms || st'.rooms[d].source in st'.gone
      ensures Paired(st'.rooms[d], Find(st', st'.rooms[d].source))
    {
      assert Paired(st.rooms[d], Find(st, st.rooms[d].source));
    }
    forall s | s in st'.rooms && st'.rooms[s].target in st'.rooms
      ensures st'.rooms[st'.rooms[s].target].source == s
    {
      assert st.rooms[st.rooms[s].target].source == s;
    }
  }

  /** Same searches in the same places: the leaders stay apart. */
  lemma SameSeatsKeepLeaders(st: State, st': State)
    requires LeadersOnce(st) && st'.waiting == st.waiting && st'.rooms.Keys == st.rooms.Keys
    requires forall k :: k in st.rooms ==> st'.rooms[k].players == st.rooms[k].players
    ensures LeadersOnce(st')
  {
    hide Pids, Distinct;
  }

  lemma CancelRooms(st: State, id: nat)
    requires Keyed(st) && RoomsOk(st) && id in st.rooms
    ensures Keyed(CancelMerge(st, id)) && RoomsOk(CancelMerge(st, id))
  {
    var st' := CancelMerge(st, id);
    forall k | k in st'.rooms ensures RoomOk(st'.rooms[k]) { assert RoomOk(st.rooms[k]); }
  }

  lemma CancelSame(st: State, id: nat)
    requires id in st.rooms
    ensures CancelMerge(st, id).waiting == st.waiting && CancelMerge(st, id).rooms.Keys == st.rooms.Keys
    ensures forall k :: k in st.rooms ==> CancelMerge(st, id).rooms[k].players == st.rooms[k].players
    ensures forall k :: k in st.rooms && NoneFailed(st.rooms[k]) ==> NoneFailed(CancelMerge(st, id).rooms[k])
  {
    var st' := CancelMerge(st, id);
    forall k | k in st.rooms && NoneFailed(st.rooms[k]) ensures NoneFailed(st'.rooms[k]) {
      assert forall m :: st'.rooms[k].Failed(m) == st.rooms[k].Failed(m);
    }
  }

  lemma CancelMergeKeeps(st: State, id: nat)
    requires Almost(st, id) && st.rooms[id].source != 0
    ensures Almost(CancelMerge(st, id), id)
  {
    hide Links, LeadersOnce, QueueOk, RoomsOk, Keyed, CancelMerge, NoneFailed;
    CancelLinks(st, id);
    CancelRooms(st, id);
    CancelSame(st, id);
    SameSeatsKeepLeaders(st, CancelMerge(st, id));
  }

  lemma CommitLinks(st: State, id: nat)
    requires Keyed(st) && Links(st) && id in st.rooms && st.rooms[id].source in st.rooms
    ensures Links(CommitMerge(st, id))
  {
    var st' := CommitMerge(st, id);
    var src := st.rooms[id].source;
    assert Paired(st.rooms[id], Find(st, src));
    forall d | d in st'.rooms && st'.rooms[d].source != 0
      ensures st'.rooms[d].source in st'.rooms || st'.rooms[d].source in st'.gone
      ensures Paired(st'.rooms[d], Find(st', st'.rooms[d].source))
    {
      assert Paired(st.rooms[d], Find(st, st.rooms[d].source));
    }
    forall s | s in st'.rooms && st'.rooms[s].target in st'.rooms
      ensures st'.rooms[st'.rooms[s].target].source == s
    {
      assert st.rooms[st.rooms[s].target].source == s;
    }
  }

  lemma CommitLeaders(st: State, id: nat)
    requires LeadersOnce(st) && id in st.rooms && st.rooms[id].source in st.rooms && st.rooms[id].source != id
    ensures LeadersOnce(CommitMerge(st, id))
  {
    PidsConcat(st.rooms[id].players, st.rooms[st.rooms[id].source].players);
    hide Pids, Distinct;
  }

  lemma AbsorbedOk(d: Room, s: Room)
    requires RoomOk(d) && RoomOk(s) && Paired(d, s)
    ensures RoomOk(Absorbed(d, s))
  {
    SeatSumConcat(d.players, s.players);
    hide SeatSum;
    assert forall p :: p in d.players + s.players <==> p in d.players || p in s.players;
  }

  lemma CommitRooms(st: State, id: nat)
    requires Keyed(st) && RoomsOk(st) && Links(st) && id in st.rooms && st.rooms[id].source in st.rooms
    ensures Keyed(CommitMerge(st, id)) && RoomsOk(CommitMerge(st, id)) && st.rooms[id].source != id
  {
    hide *;
    var src := st.rooms[id].source;
    OkPair(st, id, src);
    AbsorbedOk(st.rooms[id], st.rooms[src]);
    CommitOk(st, id);
    CommitKeyed(st, id);
  }

  lemma OkPair(st: State, id: nat, src: nat)
    requires RoomsOk(st) && Links(st) && Keyed(st) && id in st.rooms && src in st.rooms && st.rooms[id].source == src
    ensures RoomOk(st.rooms[id]) && RoomOk(st.rooms[src]) && Paired(st.rooms[id], st.rooms[src]) && src != id
  {
    ZeroIsNoRoom(st);
    hide RoomOk;
  }

  lemma CommitOk(st: State, id: nat)
    requires RoomsOk(st) && id in st.rooms && st.rooms[id].source in st.rooms
    requires RoomOk(Absorbed(st.rooms[id], st.rooms[st.rooms[id].source]))
    ensures RoomsOk(CommitMerge(st, id))
  {
    hide RoomOk, Absorbed;
  }

  lemma CommitKeyed(st: State, id: nat)
    requires Keyed(st) && id in st.rooms && st.rooms[id].source in st.rooms && st.rooms[id].source != id
    ensures Keyed(CommitMerge(st, id))
  {
  }

  lemma CommitMergeKeeps(st: State, id: nat)
    requires Almost(st, id) && st.rooms[id].source in st.rooms
    ensures Almost(CommitMerge(st, id), id)
  {
    hide Links, LeadersOnce, QueueOk, RoomsOk, NoneFailed, Keyed;
    CommitRooms(st, id);
    CommitLinks(st, id);
    CommitLeaders(st, id);
  }

  lemma FinishMergeKeeps(st: State, id: nat)
    requires Almost(st, id)
    ensures TableKeyed(st) && Almost(FinishMerge(st, id).state, id)
  {
    RoomsOkOf(st);
    var src := st.rooms[id].source;
    if src in st.rooms || src in st.gone {
      CancelMergeKeeps(st, id);
      if src in st.rooms { CommitMergeKeeps(st, id); }
    }
    hide Almost, CancelMerge, CommitMerge;
  }

  // ---------- rejection ----------

  lemma {:induction false} StandingMembersOf(r: Room, ms: seq<nat>, m: nat)
    ensures m in StandingMembers(r, ms) <==> m in ms && !r.Failed(m)
    ensures |StandingMembers(r, ms)| <= |ms|
  {
    if ms != [] {
      var a, x := ms[..|ms|-1], ms[|ms|-1];
      StandingMembersOf(r, a, m);
      assert ms == a + [x];
    }
  }

  lemma {:induction false} NothingToTrim(r: Room, p: Search, ms: seq<nat>)
    requires forall m :: m in ms ==> !r.Failed(m)
    ensures StandingMembers(r, ms) == ms
  {
    if ms != [] { NothingToTrim(r, p, ms[..|ms|-1]); }
  }

  /** Each kept search is the trimmed form of a seated one. */
  lemma {:induction false} TrimAllOf(r: Room, q: seq<Search>, p': Search)
    ensures p' in TrimAll(r, q) <==> exists p :: p in q && p' == Trim(r, p) && p'.members != []
  {
    if q != [] {
      var q0, p := q[..|q|-1], q[|q|-1];
      assert q == q0 + [p];
      TrimAllOf(r, q0, p');
    }
  }

  lemma {:induction false} TrimAllSeats(r: Room, q: seq<Search>)
    ensures SeatSum(TrimAll(r, q)) <= SeatSum(q)
  {
    if q != [] {
      var q0, p := q[..|q|-1], q[|q|-1];
      TrimAllSeats(r, q0);
      StandingMembersOf(r, p.members, 0);
      SeatSumAppend(TrimAll(r, q0), Trim(r, p));
      assert TrimAll(r, q0) + [] == TrimAll(r, q0);
    }
  }

  lemma {:induction false} TrimAllThins(r: Room, q: seq<Search>)
    ensures Thins(q, TrimAll(r, q))
  {
    if q != [] {
      var q0, p := q[..|q|-1], q[|q|-1];
      assert q == q0 + [p];
      TrimAllThins(r, q0);
      PidsAppend(q0, p);
      PidsAppend(TrimAll(r, q0), Trim(r, p));
      assert TrimAll(r, q0) + [] == TrimAll(r, q0);
    }
  }

  lemma RejectHost(r: Room)
    requires RoomOk(r)
    ensures Reject(r).host == Trim(r, r.host) && Reject(r).host in Reject(r).players
    ensures r.host.conn.pid in Reject(r).host.members
  {
    hide SeatedWell, SeatSum;
    StandingMembersOf(r, r.host.members, r.host.conn.pid);
    TrimAllOf(r, r.players, Trim(r, r.host));
  }

  lemma RejectSeated(r: Room, p': Search)
    requires RoomOk(r) && p' in Reject(r).players
    ensures SeatedWell(Reject(r), p')
    ensures forall m :: m in p'.members ==> !Reject(r).Failed(m)
  {
    RejectHost(r);
    TrimAllOf(r, r.players, p');
    var p :| p in r.players && p' == Trim(r, p) && p'.members != [];
    assert SeatedWell(r, p);
    hide RoomOk;
    forall m | m in p'.members ensures !Reject(r).Failed(m) { StandingMembersOf(r, p.members, m); }
  }

  lemma RejectOk(r: Room)
    requires RoomOk(r)
    ensures RoomOk(Reject(r)) && NoneFailed(Reject(r)) && Thins(r.players, Reject(r).players)
    ensures SeatSum(Reject(r).players) <= SeatSum(r.players)
  {
    TrimAllSeats(r, r.players);
    TrimAllThins(r, r.players);
    RejectHost(r);
    hide SeatSum, Thins, SeatedWell, Trim, TrimAll;
    forall p | p in Reject(r).players
      ensures SeatedWell(Reject(r), p) && forall m :: m in p.members ==> !Reject(r).Failed(m)
    {
      RejectSeated(r, p);
    }
  }

  lemma RejectKeeps(st: State, id: nat)
    requires Almost(st, id)
    ensures Inv(WithRoom(st, Reject(st.rooms[id])))
  {
    var r := st.rooms[id];
    RejectOk(r);
    assert RoomShrinks(st, r, Reject(r));
    UpdateKeeps(st, id, Reject(r));
    hide Core, NoneFailed, RoomShrinks;
  }

  lemma ReleaseKeeps(st: State, id: nat)
    requires Inv(st) && id in st.rooms
    ensures Inv(Release(st, id).state)
  {
    var r := st.rooms[id];
    var r' := r.(notified := r.notified + Conns(r.players));
    assert RoomShrinks(st, r, r');
    UpdateKeeps(st, id, r');
    assert NoneFailed(r') by { assert forall m :: r'.Failed(m) == r.Failed(m); }
    hide Core, NoneFailed, RoomShrinks;
  }

  // ---------- backfill ----------

  /** What filling a room from a queue does to the room. */
  ghost predicate FillRoomOk(r: Room, f: Fill) {
    && f.room == r.(players := r.players + f.added, states := f.room.states, capacity := f.room.capacity)
    && RoomOk(f.room) && NoneFailed(f.room) && Distinct(f.room.players)
  }

  /** What it does to the queue: everyone is either seated or still waiting. */
  ghost predicate FillQueueOk(q: seq<Search>, f: Fill) {
    && QueueOk(f.rest) && Distinct(f.rest)
    && Pids(f.rest) + Pids(f.added) == Pids(q) && Pids(f.rest) !! Pids(f.added)
    && (forall p :: p in f.rest + f.added ==> p in q)
  }

  ghost predicate FillOk(r: Room, q: seq<Search>, f: Fill) { FillRoomOk(r, f) && FillQueueOk(q, f) }

  lemma FillSeatRoom(r: Room, p: Search, f: Fill)
    requires FillRoomOk(r, f) && ValidSearch(p) && p.conn.pid !in Pids(f.added) && p.conn.pid !in Pids(r.players)
    requires Fits(f.room, p)
    ensures FillRoomOk(r, Fill(Seat(f.room, p), f.rest, f.added + [p]))
  {
    SeatRoomOk(f.room, p);
    PidsAppend(f.room.players, p);
    PidsConcat(r.players, f.added);
    hide RoomOk, NoneFailed, Distinct, Pids, ValidSearch, Fits;
    assert r.players + f.added + [p] == r.players + (f.added + [p]);
  }

  lemma FillSeatQueue(q0: seq<Search>, p: Search, f: Fill, room: Room)
    requires FillQueueOk(q0, f) && p.conn.pid !in Pids(q0)
    ensures FillQueueOk(q0 + [p], Fill(room, f.rest, f.added + [p]))
  {
    PidsAppend(q0, p);
    PidsAppend(f.added, p);
    hide Distinct, Pids, QueueOk;
    assert forall x :: x in q0 + [p] <==> x in q0 || x == p;
    assert forall x :: x in f.rest + f.added <==> x in f.rest || x in f.added;
    assert forall x :: x in f.rest + (f.added + [p]) <==> x in f.rest || x in f.added || x == p;
  }

  lemma FillSkip(r: Room, q0: seq<Search>, p: Search, f: Fill)
    requires FillOk(r, q0, f) && ValidSearch(p) && p.conn.pid !in Pids(q0)
    ensures FillOk(r, q0 + [p], f.(rest := f.rest + [p]))
  {
    PidsAppend(q0, p);
    PidsAppend(f.rest, p);
    hide RoomOk, NoneFailed, Distinct, Pids, ValidSearch;
    assert forall x :: x in q0 + [p] <==> x in q0 || x == p;
    assert forall x :: x in f.rest + f.added <==> x in f.rest || x in f.added;
    assert forall x :: x in (f.rest + [p]) + f.added <==> x in f.rest || x in f.added || x == p;
  }

  lemma AddedApart(q0: seq<Search>, p: Search, f: Fill)
    requires FillQueueOk(q0, f) && p.conn.pid !in Pids(q0)
    ensures p.conn.pid !in Pids(f.added)
  {
  }

  lemma {:induction false} FillFromOk(r: Room, q: seq<Search>)
    requires RoomOk(r) && NoneFailed(r) && QueueOk(q) && Distinct(q) && Distinct(r.players) && Pids(q) !! Pids(r.players)
    ensures FillOk(r, q, FillFrom(r, q))
  {
    if q == [] {
      assert r.players + [] == r.players;
      assert Pids([]) == {};
    } else {
      var q0, p := q[..|q|-1], q[|q|-1];
      assert q == q0 + [p];
      PidsAppend(q0, p);
      FillFromOk(r, q0);
      hide FillRoomOk, FillQueueOk, Distinct, Pids, RoomOk, NoneFailed, ValidSearch, Fits, Seat;
      var f := FillFrom(r, q0);
      if Fits(f.room, p) { AddedApart(q0, p, f); FillSeatRoom(r, p, f); FillSeatQueue(q0, p, f, Seat(f.room, p)); } else { FillSkip(r, q0, p, f); }
    }
  }

  lemma FillReseats(st: State, id: nat, f: Fill, version: nat)
    requires LeadersOnce(st) && Keyed(st) && id in st.rooms && st.rooms[id].source == 0 && st.rooms[id].target == 0
    requires FillOk(st.rooms[id], st.waiting, f) && version >= 1
    ensures Reseats(st, id, f.rest, f.room.(version := version)) && NoneFailed(f.room.(version := version))
  {
    var r, r' := st.rooms[id], f.room.(version := version);
    PidsConcat(r.players, f.added);
    assert RoomOk(r');
    assert NoneFailed(r') by { assert forall m :: r'.Failed(m) == f.room.Failed(m); }
    hide RoomOk, NoneFailed, Distinct, QueueOk, Pids;
    assert Pids(f.rest) !! Pids(r'.players);
  }

  lemma RoomBasics(st: State, id: nat)
    requires Keyed(st) && id in st.rooms && RoomOk(st.rooms[id])
    ensures st.rooms[id].id == id && st.rooms[id].version >= 1
  {
  }

  lemma BackfillReseats(st: State, id: nat)
    requires Inv(st) && id in st.rooms && st.rooms[id].source == 0 && st.rooms[id].target == 0
    ensures var f := FillFrom(st.rooms[id], st.waiting);
      && st.rooms[id].id == id && FillOk(st.rooms[id], st.waiting, f)
      && Reseats(st, id, f.rest, Bump(f.room)) && NoneFailed(Bump(f.room))
      && Reseats(st, id, f.rest, f.room)
  {
    hide *;
    InvParts(st);
    InvAt(st, id);
    var r := st.rooms[id];
    FillFromOk(r, st.waiting);
    var f := FillFrom(r, st.waiting);
    FillVersion(r, st.waiting, f);
    FillReseats(st, id, f, r.version);
    FillReseats(st, id, f, r.version + 1);
  }

  lemma FillVersion(r: Room, q: seq<Search>, f: Fill)
    requires FillOk(r, q, f)
    ensures f.room.version == r.version
    ensures f.room.(version := r.version) == f.room && f.room.(version := r.version + 1) == Bump(f.room)
  {
    hide FillQueueOk;
  }

  lemma BackfillKeeps(st: State, id: nat)
    requires Inv(st) && id in st.rooms
    ensures Inv(Backfill(st, id).state)
  {
    hide *;
    BackfillState(st, id);
    var r := st.rooms[id];
    if r.open && r.target == 0 && r.source == 0 {
      BackfillReseats(st, id);
      var f := FillFrom(r, st.waiting);
      if f.added == [] {
        FillNoneSame(r, st.waiting);
        InvAt(st, id);
        ReseatInv(st, id, f.rest, r);
        SameRoom(st, id, f.rest);
      } else {
        ReseatInv(st, id, f.rest, Bump(f.room));
      }
    }
  }

  lemma SameRoom(st: State, id: nat, q: seq<Search>)
    requires id in st.rooms && st.rooms[id].id == id
    ensures WithRoom(st.(waiting := q), st.rooms[id]) == st.(waiting := q)
  {
    assert st.rooms[id := st.rooms[id]] == st.rooms;
  }

  lemma BackfillState(st: State, id: nat)
    requires id in st.rooms
    ensures var r := st.rooms[id]; var f := FillFrom(r, st.waiting);
      Backfill(st, id).state ==
        if !r.open || r.target != 0 || r.source != 0 then st
        else if f.added == [] then st.(waiting := f.rest) else WithRoom(st.(waiting := f.rest), Bump(f.room))
  {
    hide FillFrom, WithRoom, Bump, UpdateNotice;
  }

  lemma ReseatedId(st: State, id: nat, q: seq<Search>, r: Room)
    requires Reseats(st, id, q, r)
    ensures r.id == id
  {
  }

  lemma {:induction false} FillNoneSame(r: Room, q: seq<Search>)
    requires FillFrom(r, q).added == []
    ensures FillFrom(r, q).room == r
  {
    if q != [] { FillNoneSame(r, q[..|q|-1]); }
  }

  // ---------- reserving a merge ----------

  lemma ReservedOk(st: State, d: Room, s: Room)
    requires Keyed(st) && RoomOk(d) && RoomOk(s) && NoneFailed(d) && NoneFailed(s)
    requires d.source == 0 && d.target == 0 && CanAbsorb(st, d, s)
    ensures RoomOk(Reserved(d, s)) && NoneFailed(Reserved(d, s))
    ensures Paired(Reserved(d, s), s.(target := d.id))
  {
    TakenBound(d, d.players);
    TakenBound(s, s.players);
    var d' := Reserved(d, s);
    forall p, m | p in d'.players && m in p.members ensures !d'.Failed(m) { assert !d.Failed(m); }
  }

  lemma ReserveLinks(st: State, d: nat, s: nat)
    requires Keyed(st) && Links(st) && d in st.rooms && s in st.rooms && s != d
    requires st.rooms[d].source == 0 && st.rooms[d].target == 0 && st.rooms[s].source == 0 && st.rooms[s].target == 0
    requires Paired(Reserved(st.rooms[d], st.rooms[s]), st.rooms[s].(target := d))
    ensures Links(WithRoom(WithRoom(st, st.rooms[s].(target := d)), Reserved(st.rooms[d], st.rooms[s])))
  {
    var st' := WithRoom(WithRoom(st, st.rooms[s].(target := d)), Reserved(st.rooms[d], st.rooms[s]));
    forall k | k in st'.rooms && st'.rooms[k].source != 0
      ensures st'.rooms[k].source in st'.rooms || st'.rooms[k].source in st'.gone
      ensures Paired(st'.rooms[k], Find(st', st'.rooms[k].source))
    {
      if k != d { assert Paired(st.rooms[k], Find(st, st.rooms[k].source)); }
    }
  }

  lemma ReserveRooms(st: State, d: nat, s: nat)
    requires Keyed(st) && RoomsOk(st) && d in st.rooms && s in st.rooms && s != d
    requires RoomOk(Reserved(st.rooms[d], st.rooms[s]))
    ensures Keyed(WithRoom(WithRoom(st, st.rooms[s].(target := d)), Reserved(st.rooms[d], st.rooms[s])))
    ensures RoomsOk(WithRoom(WithRoom(st, st.rooms[s].(target := d)), Reserved(st.rooms[d], st.rooms[s])))
  {
    hide *;
    KeysAt(st, d);
    KeysAt(st, s);
    SourceOk(st, s, d);
    var s' := st.rooms[s].(target := d);
    OneRoomOk(st, s, s');
    OneRoomKeyed(st, s, s');
    var st1 := WithRoom(st, s');
    WithRoomAt(st, s, s', d);
    KeysAt(st1, d);
    var d' := Reserved(st.rooms[d], st.rooms[s]);
    ReservedSame(st.rooms[d], st.rooms[s]);
    OneRoomOk(st1, d, d');
    OneRoomKeyed(st1, d, d');
  }

  lemma ReservedSame(d: Room, s: Room)
    ensures Reserved(d, s).id == d.id && Reserved(d, s).target == d.target
  {
  }

  lemma KeysAt(st: State, id: nat)
    requires Keyed(st) && id in st.rooms
    ensures id <= st.ids && st.rooms[id].id == id && st.rooms[id].target <= st.ids
  {
  }

  lemma SourceOk(st: State, s: nat, target: nat)
    requires Keyed(st) && RoomsOk(st) && s in st.rooms
    ensures RoomOk(st.rooms[s].(target := target))
  {
    assert RoomOk(st.rooms[s]);
  }

  lemma WithRoomAt(st: State, s: nat, r: Room, d: nat)
    requires d in st.rooms && r.id == s != d
    ensures d in WithRoom(st, r).rooms && WithRoom(st, r).rooms[d] == st.rooms[d]
  {
  }

  lemma OneRoomOk(st: State, id: nat, r: Room)
    requires RoomsOk(st) && RoomOk(r) && r.id == id
    ensures RoomsOk(WithRoom(st, r))
  {
    hide RoomOk;
  }

  lemma OneRoomKeyed(st: State, id: nat, r: Room)
    requires Keyed(st) && id in st.rooms && r.id == id && r.target <= st.ids
    ensures Keyed(WithRoom(st, r))
  {
  }

  lemma ReserveKeeps(st: State, d: nat, s: nat)
    requires Inv(st) && d in st.rooms && s in st.rooms && st.rooms[d].source == 0 && st.rooms[d].target == 0
    requires CanAbsorb(st, st.rooms[d], st.rooms[s])
    ensures Inv(WithRoom(WithRoom(st, st.rooms[s].(target := d)), Reserved(st.rooms[d], st.rooms[s])))
  {
    hide Links, QueueOk, LeadersOnce, RoomOk, MergeOpen, Occupancy, DisjointParties;
    var d0, s0 := st.rooms[d], st.rooms[s];
    var s1 := s0.(target := d);
    assert RoomOk(d0) && RoomOk(s0) && s != d && d0.id == d;
    ReservedOk(st, d0, s0);
    ReserveLinks(st, d, s);
    ReserveRooms(st, d, s);
    var st' := WithRoom(WithRoom(st, s1), Reserved(d0, s0));
    SameSeatsKeepLeaders(st, st');
    assert NoneFailed(s1) by { assert forall m :: s1.Failed(m) == s0.Failed(m); }
    hide Keyed, RoomsOk, NoneFailed;
  }

  lemma ForgetKeeps(st: State, id: nat)
    requires Inv(st) && id in st.rooms
    ensures Inv(Forget(st, id)) && id in Forget(st, id).rooms && TableKeyed(Forget(st, id))
  {
    var r := st.rooms[id];
    if Stale(st, r) {
      var r' := r.(target := 0);
      assert RoomShrinks(st, r, r');
      UpdateKeeps(st, id, r');
      assert NoneFailed(r') by { assert forall m :: r'.Failed(m) == r.Failed(m); }
      hide Core, NoneFailed, RoomShrinks;
    }
    InvKeyed(Forget(st, id));
  }

  /** startMerge reserves `best`, or nothing at all. */
  lemma StartMergeState(st0: State, id: nat) returns (best: nat)
    requires TableKeyed(st0) && id in st0.rooms && 0 !in st0.rooms
    ensures id in Forget(st0, id).rooms && TableKeyed(Forget(st0, id))
    ensures best == 0 ==> StartMerge(st0, id).state == Forget(st0, id)
    ensures best != 0 ==>
      var st := Forget(st0, id); var d := st.rooms[id];
      && best in st.rooms && d.source == 0 && d.target == 0 && CanAbsorb(st, d, st.rooms[best])
      && StartMerge(st0, id).state == WithRoom(WithRoom(st, st.rooms[best].(target := id)), Reserved(d, st.rooms[best]))
  {
    ForgetTable(st0, id);
    hide CanAbsorb, MergeOpen, Reserved, WithRoom, Forget, UpdateNotice;
    var st := Forget(st0, id);
    var d := st.rooms[id];
    best := if d.target != 0 || d.source != 0 || !MergeOpen(st, d) then 0 else Leader(st, Candidates(st, d));
  }

  lemma ForgetTable(st: State, id: nat)
    requires TableKeyed(st) && id in st.rooms
    ensures TableKeyed(Forget(st, id)) && id in Forget(st, id).rooms && Forget(st, id).rooms.Keys == st.rooms.Keys
  {
  }

  lemma StartMergeKeeps(st0: State, id: nat)
    requires Inv(st0) && id in st0.rooms
    ensures TableKeyed(st0) && Inv(StartMerge(st0, id).state)
  {
    hide *;
    InvKeyed(st0);
    ZeroIsNoRoom(st0);
    ForgetKeeps(st0, id);
    var best := StartMergeState(st0, id);
    if best != 0 { ReserveKeeps(Forget(st0, id), id, best); }
  }

  lemma ZeroIsNoRoom(st: State)
    requires Keyed(st)
    ensures 0 !in st.rooms && 0 !in st.gone
  {
  }

  lemma SettleKeeps(st: State, id: nat, doc: HostDoc)
    requires Inv(st) && id in st.rooms && doc.HostDoc?
    ensures TableKeyed(st) && Inv(Settle(st, id, doc).state)
  {
    InvKeyed(st);
    hide Inv, Almost, Reject, Adopt, FinishMerge, Release, Backfill;
    AdoptKeeps(st, id, doc);
    FinishMergeKeeps(Adopt(st, id, doc), id);
    var a := FinishMerge(Adopt(st, id, doc), id).state;
    RejectKeeps(a, id);
    var b := WithRoom(a, Reject(a.rooms[id]));
    assert id in b.rooms;
    ReleaseKeeps(b, id);
    var c := Release(b, id).state;
    assert id in c.rooms;
    BackfillKeeps(c, id);
  }

  lemma SyncKeeps(st: State, c: Conn, id: nat, version: nat, doc: HostDoc)
    requires Inv(st)
    ensures TableKeyed(st) && Inv(Sync(st, c, id, version, doc).state)
  {
    InvKeyed(st);
    if Accepts(st, c, id, version, doc) {
      hide Inv, Settle, StartMerge;
      SettleKeeps(st, id, doc);
      StartMergeKeeps(Settle(st, id, doc).state, id);
    }
  }
}
