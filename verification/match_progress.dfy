/** How rooms move forward in one step: versions, and which connections still wait for a notice. */
module MatchProgress {
  import opened MatchTypes
  import opened MatchSteps
  import opened MatchInvariant
  import opened MatchSync

  /** Connections seated in the room that have not been told to come. */
  function Pending(r: Room): set<Conn> { Conns(r.players) - r.notified }

  /** The version never falls, and while it stands still nobody new starts waiting for a notice. */
  ghost predicate Advances(r: Room, r': Room) {
    r'.version >= r.version && (r'.version == r.version ==> Pending(r') <= Pending(r))
  }

  /** A reservation that stays keeps the version it was made with. */
  ghost predicate HoldsVersion(r: Room, r': Room) {
    r.source != 0 && r'.source == r.source ==> r'.version == r.version
  }

  /** Rooms present after the step advanced, or are new and carry a fresh id. */
  ghost predicate Progress(st: State, st': State) {
    && st.ids <= st'.ids
    && forall id :: id in st'.rooms ==>
         if id in st.rooms then Advances(st.rooms[id], st'.rooms[id]) && HoldsVersion(st.rooms[id], st'.rooms[id]) else id > st.ids
  }

  lemma ConnsConcat(a: seq<Search>, b: seq<Search>)
    ensures Conns(a + b) == Conns(a) + Conns(b)
  {
    assert forall x :: x in a + b <==> x in a || x in b;
  }

  lemma SameConnSameSearch(q: seq<Search>, a: Search, b: Search)
    requires Distinct(q) && a in q && b in q && a.conn == b.conn
    ensures a == b
  {
    SameLeaderSameSearch(q, a, b);
  }

  // ---------- evict, leave, scan ----------

  lemma DropConns(q: seq<Search>, hit: Search -> bool)
    ensures Conns(DropFirst(q, hit)) <= Conns(q)
  {
    DropFirstThins(q, hit);
  }

  lemma EvictPending(r: Room, pid: nat)
    requires Distinct(r.players)
    ensures Pending(EvictFrom(r, pid)) <= Pending(r)
  {
    var r' := EvictFrom(r, pid);
    DropConns(r.players, LedBy(pid));
    EvictedIsGone(r, pid);
    forall c | c in Pending(r') ensures c !in r.notified {
      var p :| p in r'.players && p.conn == c;
      assert p.conn.pid in Pids(r'.players);
    }
  }

  /** Same room, no newcomers waiting for a notice. */
  ghost predicate Calm(r: Room, r': Room) {
    r'.version == r.version && r'.source == r.source && Pending(r') <= Pending(r)
  }

  ghost predicate CalmStep(st: State, st': State) {
    st'.ids == st.ids && forall id :: id in st'.rooms ==> id in st.rooms && Calm(st.rooms[id], st'.rooms[id])
  }

  lemma EvictCalm(st: State, pid: nat)
    requires LeadersOnce(st)
    ensures CalmStep(st, Evict(st, pid))
  {
    var st' := Evict(st, pid);
    forall id | id in st'.rooms ensures id in st.rooms && Calm(st.rooms[id], st'.rooms[id]) {
      EvictPending(st.rooms[id], pid);
    }
  }

  lemma LeaveCalm(st: State, c: Conn, id: nat)
    ensures CalmStep(st, Leave(st, c, id))
  {
    var st' := Leave(st, c, id);
    forall k | k in st'.rooms ensures k in st.rooms && Calm(st.rooms[k], st'.rooms[k]) {
      DropConns(st.rooms[k].players, OfConn(c));
    }
  }

  lemma ScannedCalm(st: State, sel: nat)
    ensures CalmStep(st, Scanned(st, sel))
  {
  }

  lemma CalmTransitive(a: State, b: State, c: State)
    requires CalmStep(a, b) && CalmStep(b, c)
    ensures CalmStep(a, c)
  {
    hide Pending;
  }

  lemma CalmProgress(a: State, b: State, c: State)
    requires CalmStep(a, b)
    requires b.ids <= c.ids
    requires forall id :: id in c.rooms ==>
      if id in b.rooms then
        || c.rooms[id] == b.rooms[id]
        || (c.rooms[id].version > b.rooms[id].version && b.rooms[id].source == 0)
      else id > b.ids && id !in a.rooms
    ensures Progress(a, c)
  {
    hide Pending;
  }

  lemma PlaceAdvances(st0: State, st: State, sel: nat, s: Search)
    requires TableKeyed(st) && st0.ids == st.ids && Keyed(st0) && CalmStep(st0, st)
    requires sel in st.rooms ==> st.rooms[sel].source == 0
    ensures Progress(st0, Place(st, sel, s).state)
  {
    hide Calm, Seat, Bump, Gather, Progress;
    if sel in st.rooms { SeatSame(st.rooms[sel], s); }
    GatherProgress(st, s);
    NewIdsFresh(st0);
    CalmProgress(st0, st, Place(st, sel, s).state);
  }

  /** The room a search is seated in, if any, admits it and reserves nothing. */
  lemma EnqueueIs(st: State, s: Search) returns (sel: nat)
    requires TableKeyed(st) && 0 !in st.rooms
    ensures var st1 := Evict(st, s.conn.pid); var st2 := Scanned(st1, sel);
      && TableKeyed(st2) && Enqueue(st, s) == Place(st2, sel, s) && (sel in st2.rooms ==> st2.rooms[sel].source == 0)
  {
    EvictTable(st, s.conn.pid);
    var st1 := Evict(st, s.conn.pid);
    sel := Leader(st1, Admitting(st1, s));
    ScannedSame(st1, sel);
    if sel in st1.rooms { AdmitsUnlinked(st1, st1.rooms[sel], s); }
    hide Evict, Scanned, Place, Admits;
  }

  lemma EvictTable(st: State, pid: nat)
    ensures Evict(st, pid).rooms.Keys <= st.rooms.Keys
    ensures TableKeyed(st) ==> TableKeyed(Evict(st, pid))
  {
  }

  lemma EnqueueProgress(st: State, s: Search)
    requires Inv(st) && ValidSearch(s)
    ensures TableKeyed(st) && Progress(st, Enqueue(st, s).state)
  {
    hide *;
    InvParts(st);
    ZeroIsNoRoom(st);
    var sel := EnqueueIs(st, s);
    var st1 := Evict(st, s.conn.pid);
    var st2 := Scanned(st1, sel);
    EvictCalm(st, s.conn.pid);
    ScannedCalm(st1, sel);
    CalmTransitive(st, st1, st2);
    CalmIds(st, st2);
    PlaceAdvances(st, st2, sel, s);
  }

  lemma CalmIds(st: State, st': State)
    requires CalmStep(st, st')
    ensures st'.ids == st.ids
  {
  }

  lemma InvLeaders(st: State)
    requires Inv(st)
    ensures LeadersOnce(st)
  {
  }

  lemma NewIdsFresh(st: State)
    requires Keyed(st)
    ensures st.ids + 1 !in st.rooms
  {
  }

  lemma AdmitsUnlinked(st: State, r: Room, s: Search)
    ensures Admits(st, r, s) ==> r.source == 0
  {
  }

  lemma SeatSame(r: Room, s: Search)
    ensures Bump(Seat(r, s)).id == r.id && Bump(Seat(r, s)).version == r.version + 1 && Bump(Seat(r, s)).source == r.source
  {
  }

  lemma ScannedSame(st: State, sel: nat)
    ensures Scanned(st, sel).rooms.Keys == st.rooms.Keys
    ensures forall id :: id in st.rooms ==> Scanned(st, sel).rooms[id] == st.rooms[id].(target := Scanned(st, sel).rooms[id].target)
  {
  }

  lemma GatherProgress(st: State, s: Search)
    ensures var st' := Gather(st, s).state;
      && st.ids <= st'.ids
      && forall id :: id in st'.rooms ==> id == st.ids + 1 || (id in st.rooms && st'.rooms[id] == st.rooms[id])
  {
  }

  // ---------- sync ----------

  /** A sync of `id` leaves every other room alone, except that it may free it from a merge. */
  ghost predicate OthersKept(st: State, st': State, id: nat) {
    && st'.ids == st.ids && id in st'.rooms
    && forall o :: o in st'.rooms ==> o in st.rooms && (o != id ==> st'.rooms[o] == st.rooms[o].(target := st'.rooms[o].target))
  }

  lemma FinishMergeOthers(st: State, id: nat)
    requires TableKeyed(st) && id in st.rooms
    ensures OthersKept(st, FinishMerge(st, id).state, id)
  {
    hide MergeStands, Expected, Absorbed;
  }

  lemma BackfillOthers(st: State, id: nat)
    requires TableKeyed(st) && id in st.rooms
    ensures OthersKept(st, Backfill(st, id).state, id)
  {
    FillSame(st.rooms[id], st.waiting);
    hide FillFrom, Expected;
  }

  lemma {:induction false} FillSame(r: Room, q: seq<Search>)
    ensures var f := FillFrom(r, q);
      f.room == r.(players := r.players + f.added, states := f.room.states, capacity := f.room.capacity)
  {
    if q == [] {
      assert r.players + [] == r.players;
    } else {
      FillSame(r, q[..|q|-1]);
      var f := FillFrom(r, q[..|q|-1]);
      assert r.players + f.added + [q[|q|-1]] == r.players + (f.added + [q[|q|-1]]);
    }
  }

  lemma OthersTransitive(a: State, b: State, c: State, id: nat)
    requires OthersKept(a, b, id) && OthersKept(b, c, id)
    ensures OthersKept(a, c, id)
  {
  }

  lemma ReleaseOthers(b: State, id: nat)
    requires TableKeyed(b) && id in b.rooms
    ensures OthersKept(b, Release(b, id).state, id)
  {
    hide Expected;
  }

  lemma RejectOthers(a: State, id: nat)
    requires TableKeyed(a) && id in a.rooms
    ensures OthersKept(a, WithRoom(a, Reject(a.rooms[id])), id)
  {
    RejectSame(a.rooms[id]);
    hide Reject;
  }

  lemma SettleOthers(st: State, id: nat, doc: HostDoc)
    requires TableKeyed(st) && id in st.rooms && doc.HostDoc?
    ensures OthersKept(st, Settle(st, id, doc).state, id)
  {
    var st1 := Adopt(st, id, doc);
    assert OthersKept(st, st1, id);
    hide FinishMerge, Reject, Backfill, Adopt, Release, OthersKept;
    FinishMergeOthers(st1, id);
    var a := FinishMerge(st1, id).state;
    var b := WithRoom(a, Reject(a.rooms[id]));
    var c := Release(b, id).state;
    RejectOthers(a, id);
    RejectSame(a.rooms[id]);
    ReleaseOthers(b, id);
    BackfillOthers(c, id);
    OthersTransitive(st, st1, a, id);
    OthersTransitive(st, a, b, id);
    OthersTransitive(st, b, c, id);
    OthersTransitive(st, c, Backfill(c, id).state, id);
  }

  lemma RejectSame(r: Room)
    ensures Reject(r).id == r.id && Reject(r).version == r.version && Reject(r).source == r.source && Reject(r).target == r.target
    ensures Reject(r).host.conn == r.host.conn && Reject(r).capacity == r.capacity && Reject(r).open == r.open && Reject(r).states == r.states
    ensures Reject(r).host.filter == r.host.filter
  {
  }

  /** The room being synced once finishMerge and rejection are through. */
  ghost function Sorted(st: State, id: nat, doc: HostDoc): (r: Room)
    requires TableKeyed(st) && id in st.rooms && doc.HostDoc?
  {
    Reject(FinishMerge(Adopt(st, id, doc), id).state.rooms[id])
  }

  lemma RejectPending(r: Room)
    requires Distinct(r.players)
    ensures Pending(Reject(r)) <= Pending(r)
  {
    forall c | c in Pending(Reject(r)) ensures c in Pending(r) {
      var p' :| p' in Reject(r).players && p'.conn == c;
      TrimAllOf(r, r.players, p');
      var p :| p in r.players && p' == Trim(r, p) && p'.members != [];
      if c in r.notified {
        assert c in Rejected(r, r.players);
        var x :| x in r.players && Trim(r, x).members == [] && x.conn == c;
        SameConnSameSearch(r.players, p, x);
      }
    }
  }

  lemma FinishMergePending(st: State, id: nat)
    requires TableKeyed(st) && id in st.rooms
    ensures Pending(FinishMerge(st, id).state.rooms[id]) <= Pending(st.rooms[id])
    ensures FinishMerge(st, id).state.rooms[id].version >= st.rooms[id].version
  {
    var dst := st.rooms[id];
    if dst.source in st.rooms {
      ConnsConcat(dst.players, st.rooms[dst.source].players);
    }
    hide MergeStands, Expected;
  }

  /** After finishMerge and rejection nobody waits for a notice who did not wait before. */
  lemma SortedPending(st: State, id: nat, doc: HostDoc)
    requires Inv(st) && id in st.rooms && doc.HostDoc?
    ensures TableKeyed(st)
    ensures Pending(Sorted(st, id, doc)) <= Pending(st.rooms[id])
    ensures Sorted(st, id, doc).version >= st.rooms[id].version
    ensures Sorted(st, id, doc).id == id
  {
    InvKeyed(st);
    AdoptKeeps(st, id, doc);
    var st1 := Adopt(st, id, doc);
    FinishMergeKeeps(st1, id);
    FinishMergePending(st1, id);
    var a := FinishMerge(st1, id).state;
    assert Distinct(a.rooms[id].players) by { AlmostDistinct(a, id); }
    RejectPending(a.rooms[id]);
    RejectSame(a.rooms[id]);
    hide Inv, Almost, FinishMerge, Reject;
  }

  lemma AlmostDistinct(st: State, id: nat)
    requires Almost(st, id)
    ensures Distinct(st.rooms[id].players) && st.rooms[id].id == id && RoomOk(st.rooms[id])
  {
  }

  /** A sync up to its reservation, phase by phase. */
  lemma SettleParts(st: State, id: nat, doc: HostDoc)
    requires TableKeyed(st) && id in st.rooms && doc.HostDoc?
    ensures TableKeyed(Adopt(st, id, doc)) && id in Adopt(st, id, doc).rooms
    ensures var a := FinishMerge(Adopt(st, id, doc), id); var r := Sorted(st, id, doc); var b := WithRoom(a.state, r);
      id in b.rooms && b.rooms[id] == r && TableKeyed(b)
    ensures var a := FinishMerge(Adopt(st, id, doc), id); var r := Sorted(st, id, doc); var c := Release(WithRoom(a.state, r), id);
      && r == Reject(a.state.rooms[id]) && r.id == id && TableKeyed(c.state) && id in c.state.rooms
      && c.state.rooms[id] == r.(notified := r.notified + Conns(r.players)) && c.state.waiting == a.state.waiting
      && Settle(st, id, doc) == Outcome(Backfill(c.state, id).state, a.out + c.out + Backfill(c.state, id).out)
  {
    var a := FinishMerge(Adopt(st, id, doc), id).state;
    RejectSame(a.rooms[id]);
    hide FinishMerge, Reject, Backfill, Expected, Unreleased, Adopt;
  }

  lemma {:induction false} FillMembers(r: Room, q: seq<Search>)
    ensures forall p :: p in q <==> p in FillFrom(r, q).added || p in FillFrom(r, q).rest
  {
    if q != [] {
      FillMembers(r, q[..|q|-1]);
      assert q == q[..|q|-1] + [q[|q|-1]];
      hide Fits, Seat;
    }
  }

  /** What backfill does to the room, and where the searches it adds come from. */
  lemma BackfillAdds(st: State, id: nat) returns (added: seq<Search>)
    requires TableKeyed(st) && id in st.rooms
    ensures id in Backfill(st, id).state.rooms
    ensures var r, r' := st.rooms[id], Backfill(st, id).state.rooms[id];
      && r'.players == r.players + added && r'.notified == r.notified && r'.source == r.source
      && r'.version == r.version + (if added == [] then 0 else 1) && (r.source != 0 ==> added == [])
    ensures forall p :: p in added ==> p in st.waiting
    ensures forall p :: p in st.waiting && p !in added ==> p in Backfill(st, id).state.waiting
  {
    var r := st.rooms[id];
    FillSame(r, st.waiting);
    FillMembers(r, st.waiting);
    hide FillFrom, Expected;
    added := if !r.open || r.target != 0 || r.source != 0 then [] else FillFrom(r, st.waiting).added;
    assert r.players + [] == r.players;
  }

  /** The searches backfill adds to the synced room come from the queue. */
  lemma SettleAdded(st: State, id: nat, doc: HostDoc) returns (added: seq<Search>)
    requires Inv(st) && id in st.rooms && doc.HostDoc?
    ensures TableKeyed(st)
    ensures Settle(st, id, doc).state.rooms[id].players == Sorted(st, id, doc).players + added
    ensures forall p :: p in added ==> p in st.waiting
    ensures added != [] ==> Settle(st, id, doc).state.rooms[id].version == Sorted(st, id, doc).version + 1
    ensures forall p :: p in st.waiting && p !in added ==> p in Settle(st, id, doc).state.waiting
  {
    hide *;
    InvKeyed(st);
    SettleParts(st, id, doc);
    FinishMergeWaits(st, id, doc);
    added := BackfillAdds(Release(WithRoom(FinishMerge(Adopt(st, id, doc), id).state, Sorted(st, id, doc)), id).state, id);
  }

  lemma FinishMergeWaits(st: State, id: nat, doc: HostDoc)
    requires TableKeyed(st) && id in st.rooms && doc.HostDoc?
    ensures FinishMerge(Adopt(st, id, doc), id).state.waiting == st.waiting
  {
    hide MergeStands, Expected;
  }

  /** What release and backfill do to the synced room. */
  lemma SettleRoom(st: State, id: nat, doc: HostDoc)
    requires Inv(st) && id in st.rooms && doc.HostDoc?
    ensures TableKeyed(st)
    ensures var r, r' := Sorted(st, id, doc), Settle(st, id, doc).state.rooms[id];
      && r.notified <= r'.notified && Conns(r.players) <= r'.notified
      && r'.source == r.source && r'.version >= r.version
      && (r'.version == r.version ==> r'.players == r.players)
      && (r.source != 0 ==> r'.version == r.version)
  {
    hide *;
    InvKeyed(st);
    SettleParts(st, id, doc);
    var r := Sorted(st, id, doc);
    var added := BackfillAdds(Release(WithRoom(FinishMerge(Adopt(st, id, doc), id).state, r), id).state, id);
    assert r.players + [] == r.players;
  }

  lemma SettleAdvances(st: State, id: nat, doc: HostDoc)
    requires Inv(st) && id in st.rooms && doc.HostDoc?
    ensures TableKeyed(st) && Advances(st.rooms[id], Settle(st, id, doc).state.rooms[id])
  {
    SortedPending(st, id, doc);
    SettleRoom(st, id, doc);
    hide Inv, Settle, Sorted;
  }

  lemma SettleResolves(st: State, id: nat, doc: HostDoc)
    requires Inv(st) && id in st.rooms && doc.HostDoc? && st.rooms[id].source != 0
    ensures TableKeyed(st) && Settle(st, id, doc).state.rooms[id].source == 0
    ensures Settle(st, id, doc).out != []
  {
    SettleRoom(st, id, doc);
    FinishMergeResolves(st, id, doc);
    hide Inv, FinishMerge;
  }

  /** A sync of a room with a reservation always resolves the reservation. */
  lemma SyncResolves(st: State, c: Conn, id: nat, version: nat, doc: HostDoc)
    requires Inv(st) && Accepts(st, c, id, version, doc) && st.rooms[id].source != 0
    ensures TableKeyed(st) && Sync(st, c, id, version, doc) == Settle(st, id, doc)
    ensures Settle(st, id, doc).state.rooms[id].source == 0
  {
    InvKeyed(st);
    SettleResolves(st, id, doc);
    hide Inv, Settle;
  }

  lemma FinishMergeResolves(st: State, id: nat, doc: HostDoc)
    requires Inv(st) && id in st.rooms && doc.HostDoc? && st.rooms[id].source != 0
    ensures TableKeyed(st)
    ensures FinishMerge(Adopt(st, id, doc), id).out != []
    ensures Sorted(st, id, doc).source == 0
  {
    InvKeyed(st);
    var st1 := Adopt(st, id, doc);
    var src := st.rooms[id].source;
    assert Paired(st.rooms[id], Find(st, src));
    if src in st.rooms { assert st.rooms[src].host in st.rooms[src].players; }
    hide Inv, MergeStands, Expected, RoomOk;
  }

  /** What a reservation changes in the synced room. */
  ghost predicate ReservedFrom(r: Room, r': Room) {
    && r'.id == r.id && r'.players == r.players && r'.notified == r.notified
    && r'.version == r.version + if r'.source != 0 then 1 else 0
  }

  lemma ForgetOthers(st: State, id: nat)
    requires Keyed(st) && id in st.rooms
    ensures Keyed(Forget(st, id)) && OthersKept(st, Forget(st, id), id)
    ensures Forget(st, id).rooms[id] == st.rooms[id].(target := Forget(st, id).rooms[id].target)
  {
  }

  lemma ReserveOthers(st: State, best: nat, id: nat)
    requires Keyed(st) && id in st.rooms && best in st.rooms && st.rooms[id].source == 0
    ensures var st' := WithRoom(WithRoom(st, st.rooms[best].(target := id)), Reserved(st.rooms[id], st.rooms[best]));
      OthersKept(st, st', id) && id in st'.rooms && ReservedFrom(st.rooms[id], st'.rooms[id])
  {
  }

  lemma StartMergeOthers(st: State, id: nat)
    requires Keyed(st) && id in st.rooms && st.rooms[id].source == 0
    ensures TableKeyed(st)
    ensures OthersKept(st, StartMerge(st, id).state, id) && ReservedFrom(st.rooms[id], StartMerge(st, id).state.rooms[id])
  {
    var f := Forget(st, id);
    ForgetOthers(st, id);
    var st' := StartMerge(st, id).state;
    if st' != f {
      var best := Leader(f, Candidates(f, f.rooms[id]));
      ReserveOthers(f, best, id);
      hide MergeOpen, Candidates, Expected, Leads, Leader, UpdateNotice, Reserved, OthersKept, Keyed, Forget;
      OthersTransitive(st, f, st', id);
    }
  }

  lemma SettleIdle(st: State, id: nat, doc: HostDoc)
    requires Inv(st) && id in st.rooms && doc.HostDoc? && st.rooms[id].source == 0
    ensures TableKeyed(st) && Settle(st, id, doc).state.rooms[id].source == 0
  {
    SettleRoom(st, id, doc);
    hide Inv;
    ZeroIsNoRoom(st);
    FinishMergeIdle(Adopt(st, id, doc), id);
    RejectSame(Adopt(st, id, doc).rooms[id]);
    hide Settle;
  }

  /** A sync that does not reserve. */
  lemma SettleProgress(st: State, id: nat, doc: HostDoc)
    requires Inv(st) && id in st.rooms && doc.HostDoc?
    ensures TableKeyed(st) && Progress(st, Settle(st, id, doc).state)
  {
    hide Inv, Settle, OthersKept, Advances, Progress;
    InvKeyed(st);
    SettleOthers(st, id, doc);
    SettleAdvances(st, id, doc);
    if st.rooms[id].source != 0 { SettleResolves(st, id, doc); }
    OthersAndOne(st, Settle(st, id, doc).state, id);
  }

  /** A sync that goes on to reserve another room. */
  lemma ReserveProgress(st: State, id: nat, doc: HostDoc)
    requires Inv(st) && id in st.rooms && doc.HostDoc? && st.rooms[id].source == 0
    ensures TableKeyed(st) && TableKeyed(Settle(st, id, doc).state) && Progress(st, StartMerge(Settle(st, id, doc).state, id).state)
  {
    hide Inv, Settle, StartMerge, Pending, OthersKept, Advances, Progress;
    InvKeyed(st);
    SettleOthers(st, id, doc);
    SettleAdvances(st, id, doc);
    SettleKeeps(st, id, doc);
    SettleIdle(st, id, doc);
    var st1 := Settle(st, id, doc).state;
    InvKeyed(st1);
    StartMergeOthers(st1, id);
    var st2 := StartMerge(st1, id).state;
    OthersTransitive(st, st1, st2, id);
    OthersThere(st1, st2, id);
    ReservedAdvances(st.rooms[id], st1.rooms[id], st2.rooms[id]);
    OthersAndOne(st, st2, id);
  }

  lemma OthersThere(st: State, st': State, id: nat)
    requires OthersKept(st, st', id)
    ensures id in st'.rooms
  {
  }

  lemma OthersAndOne(st: State, st': State, id: nat)
    requires OthersKept(st, st', id) && id in st.rooms && id in st'.rooms && Advances(st.rooms[id], st'.rooms[id])
    requires HoldsVersion(st.rooms[id], st'.rooms[id])
    ensures Progress(st, st')
  {
    OthersProgress(st, st', id);
    hide Advances, HoldsVersion;
  }

  lemma SyncProgress(st: State, c: Conn, id: nat, version: nat, doc: HostDoc)
    requires Inv(st)
    ensures TableKeyed(st) && Progress(st, Sync(st, c, id, version, doc).state)
  {
    InvKeyed(st);
    if Accepts(st, c, id, version, doc) {
      SettleProgress(st, id, doc);
      if st.rooms[id].source != 0 { SyncResolves(st, c, id, version, doc); } else { ReserveProgress(st, id, doc); }
    }
    hide Inv, Settle, StartMerge, Progress;
  }

  lemma ReservedAdvances(r: Room, r1: Room, r2: Room)
    requires Advances(r, r1) && ReservedFrom(r1, r2)
    ensures Advances(r, r2)
  {
  }

  lemma FinishMergeIdle(st: State, id: nat)
    requires TableKeyed(st) && id in st.rooms && st.rooms[id].source == 0 && 0 !in st.rooms && 0 !in st.gone
    ensures FinishMerge(st, id) == Outcome(st, [])
  {
  }

  lemma OthersProgress(st: State, st': State, id: nat)
    requires OthersKept(st, st', id)
    ensures forall o :: o in st'.rooms && o != id ==> o in st.rooms && Advances(st.rooms[o], st'.rooms[o]) && HoldsVersion(st.rooms[o], st'.rooms[o])
  {
  }
}
