/** What a host's document does, said of the rooms before and after the call. */
module MatchSynced {
  import opened Common
  import opened MatchTypes
  import opened MatchSteps
  import opened MatchInvariant
  import opened MatchSync
  import opened MatchProgress
  import opened MatchRuns
  import opened MatchMerge
  import opened MatchSeating

  // ---------- who survives a document ----------

  /** The host's own account stands; anyone else does unless reported in state 3. */
  function StandsIn(host: nat, states: map<nat, int>): nat -> bool {
    (m: nat) => m == host || m !in states || states[m] != 3
  }

  /** Somebody of the search stands. */
  function Stays(host: nat, states: map<nat, int>): Search -> bool {
    (p: Search) => exists m :: m in p.members && StandsIn(host, states)(m)
  }

  /** The search without the members who do not stand. */
  function Cut(host: nat, states: map<nat, int>, p: Search): Search {
    var ms := Select(p.members, StandsIn(host, states));
    p.(members := ms, seats := |ms|)
  }

  /** `kept` are the searches of `q` of which somebody stands, in their order, each cut. */
  ghost predicate Survive(host: nat, states: map<nat, int>, q: seq<Search>, kept: seq<Search>) {
    var s := Select(q, Stays(host, states));
    |kept| == |s| && forall i :: 0 <= i < |s| ==> kept[i] == Cut(host, states, s[i])
  }

  lemma {:induction false} StandingIsSelect(r: Room, ms: seq<nat>)
    ensures StandingMembers(r, ms) == Select(ms, StandsIn(r.host.conn.pid, r.states))
  {
    if ms != [] { StandingIsSelect(r, ms[..|ms|-1]); }
  }

  lemma TrimIsCut(r: Room, p: Search)
    ensures Trim(r, p) == Cut(r.host.conn.pid, r.states, p)
    ensures Trim(r, p).members != [] <==> Stays(r.host.conn.pid, r.states)(p)
  {
    var h, s := r.host.conn.pid, r.states;
    StandingIsSelect(r, p.members);
    forall m ensures m in Trim(r, p).members <==> m in p.members && StandsIn(h, s)(m) { SelectMember(p.members, StandsIn(h, s), m); }
    hide Select, StandsIn;
    if Trim(r, p).members != [] { assert Trim(r, p).members[0] in Trim(r, p).members; }
  }

  lemma {:induction false} TrimAllSurvive(r: Room, q: seq<Search>)
    ensures Survive(r.host.conn.pid, r.states, q, TrimAll(r, q))
  {
    if q != [] {
      var h, s := r.host.conn.pid, r.states;
      var q0, p := q[..|q|-1], q[|q|-1];
      TrimAllSurvive(r, q0);
      TrimIsCut(r, p);
      hide Trim, Cut, Stays;
      assert Select(q, Stays(h, s)) == Select(q0, Stays(h, s)) + if Stays(h, s)(p) then [p] else [];
    }
  }

  lemma RejectIs(r: Room)
    requires RoomOk(r)
    ensures var (h, s, r') := (r.host.conn.pid, r.states, Reject(r));
      && Survive(h, s, r.players, r'.players)
      && r' == r.(players := r'.players, notified := r'.notified, host := Cut(h, s, r.host))
      && forall c :: c in r'.notified <==> c in r.notified && forall p :: p in r.players && p.conn == c ==> Stays(h, s)(p)
  {
    var h, s := r.host.conn.pid, r.states;
    TrimAllSurvive(r, r.players);
    TrimIsCut(r, r.host);
    assert r.host.conn.pid in r.host.members && StandsIn(h, s)(h);
    forall p ensures Trim(r, p).members == [] <==> !Stays(h, s)(p) { TrimIsCut(r, p); }
    hide Trim, Cut, Stays, TrimAll, Survive, RoomOk;
    assert r.host in r.players by { HostSeated(r); }
  }

  lemma HostSeated(r: Room)
    requires RoomOk(r)
    ensures r.host in r.players && r.host.conn.pid in r.host.members
  {
  }

  // ---------- when a reserved merge is carried out ----------

  /** Everybody is reported as connected. */
  ghost predicate AllConnected(states: map<nat, int>, q: seq<Search>) {
    forall p, m :: p in q && m in p.members ==> m in states && states[m] == 2
  }

  ghost predicate NoneIn(states: map<nat, int>, q: seq<Search>, state: int) {
    forall p, m :: p in q && m in p.members ==> m !in states || states[m] != state
  }

  ghost predicate NobodyTwice(a: seq<Search>, b: seq<Search>) {
    forall p, q, m :: p in a && q in b && m in p.members ==> m !in q.members
  }

  lemma {:induction false} JoinedMembers(r: Room, ms: seq<nat>)
    ensures Joined(r, ms) <= |ms|
    ensures Joined(r, ms) == |ms| <==> forall m :: m in ms ==> m in r.states && r.states[m] == 2
  {
    if ms != [] {
      JoinedMembers(r, ms[..|ms|-1]);
      assert ms == ms[..|ms|-1] + [ms[|ms|-1]];
    }
  }

  lemma {:induction false} JoinedSum(r: Room, q: seq<Search>)
    ensures JoinedIn(r, q) <= SeatSum(q)
    ensures JoinedIn(r, q) == SeatSum(q) <==> AllConnected(r.states, q)
  {
    if q != [] {
      var q0, p := q[..|q|-1], q[|q|-1];
      JoinedSum(r, q0);
      JoinedMembers(r, p.members);
      assert q == q0 + [p];
      hide Joined;
    }
  }

  /** A room nobody has failed in and that reserves nothing is ready to be merged exactly when it
      is open and everybody in it is connected. */
  lemma ReadyExactly(st: State, r: Room)
    requires RoomOk(r) && NoneFailed(r) && r.source == 0 && 0 !in st.rooms && 0 !in st.gone
    ensures Occupancy(st, r) == SeatSum(r.players) > 0
    ensures MergeOpen(st, r) <==> r.open && AllConnected(r.states, r.players)
  {
    TakenBound(r, r.players);
    JoinedSum(r, r.players);
    PeopleIn(r);
    hide SeatSum, JoinedIn, Taken, RoomOk, AllConnected;
  }

  lemma PeopleIn(r: Room)
    requires RoomOk(r)
    ensures SeatSum(r.players) > 0
  {
    var i :| 0 <= i < |r.players| && r.players[i] == r.host;
    SeatSumWithout(r.players, i);
    hide SeatSum;
  }

  /** The pending merge into room `id` is carried out under this document. */
  ghost predicate Unites(st: State, id: nat, doc: HostDoc)
    requires id in st.rooms && doc.HostDoc?
  {
    && st.rooms[id].source in st.rooms
    && var q := st.rooms[st.rooms[id].source];
    && doc.open && q.open && AllConnected(q.states, q.players)
    && NobodyTwice(st.rooms[id].players, q.players) && NoneIn(doc.states, q.players, 3)
  }

  lemma SourceOf(st: State, id: nat)
    requires Inv(st) && id in st.rooms && st.rooms[id].source in st.rooms
    ensures var s := st.rooms[st.rooms[id].source];
      && s.id == st.rooms[id].source != id && s.source == 0 && s.target == id && RoomOk(s) && NoneFailed(s) && s.id != 0
      && st.rooms[id].target == 0
  {
    InvParts(st);
    ZeroIsNoRoom(st);
    InvAt(st, st.rooms[id].source);
    InvAt(st, id);
    assert Paired(st.rooms[id], Find(st, st.rooms[id].source));
    hide Inv, RoomOk, NoneFailed, Links, Keyed;
  }

  lemma StandsExactly(st: State, d: Room, q: Room)
    requires q.id in st.rooms && q.target == d.id && RoomOk(q) && NoneFailed(q) && q.source == 0 && 0 !in st.rooms && 0 !in st.gone
    ensures MergeStands(st, d, q) <==>
      d.open && q.open && AllConnected(q.states, q.players) && NobodyTwice(d.players, q.players) && NoneIn(d.states, q.players, 3)
  {
    ReadyExactly(st, q);
    assert forall m :: d.Status(m) != 3 <==> m !in d.states || d.states[m] != 3;
    hide MergeOpen, AllConnected, RoomOk, NoneFailed, SeatSum;
  }

  lemma Adopted(st: State, id: nat, doc: HostDoc)
    requires Inv(st) && id in st.rooms && doc.HostDoc?
    ensures var st1 := Adopt(st, id, doc);
      && st1.rooms == st.rooms[id := st.rooms[id].(open := doc.open, states := doc.states)] && st1.gone == st.gone
      && TableKeyed(st) && TableKeyed(st1) && 0 !in st1.rooms && 0 !in st1.gone && st1.rooms[id].id == id
  {
    InvParts(st);
    ZeroIsNoRoom(st);
    hide Inv, Keyed, Links, RoomsOk, LeadersOnce, QueueOk;
  }

  lemma UnitesExactly(st: State, id: nat, doc: HostDoc)
    requires Inv(st) && id in st.rooms && doc.HostDoc?
    ensures Unites(st, id, doc) <==> Commits(st, id, doc)
  {
    Adopted(st, id, doc);
    var st1 := Adopt(st, id, doc);
    if st.rooms[id].source in st.rooms {
      SourceOf(st, id);
      StandsExactly(st1, st1.rooms[id], st1.rooms[st.rooms[id].source]);
    }
    hide Inv, RoomOk, NoneFailed, MergeStands, AllConnected, NobodyTwice, NoneIn, Adopt;
  }

  /** The destination after finishMerge. */
  function United(r: Room, q: Room, doc: HostDoc): Room
    requires doc.HostDoc?
  {
    r.(open := doc.open, states := doc.states, source := 0, players := r.players + q.players,
       capacity := if q.capacity < r.capacity then q.capacity else r.capacity, notified := r.notified + set p | p in q.players :: p.conn)
  }

  function Parted(r: Room, doc: HostDoc): Room
    requires doc.HostDoc?
  {
    r.(open := doc.open, states := doc.states, source := 0, version := r.version + if r.source == 0 then 0 else 1)
  }

  /** The table after finishMerge, `a`, given the one before the document came. */
  ghost predicate Finished(st: State, id: nat, doc: HostDoc, a: State)
    requires id in st.rooms && doc.HostDoc?
  {
    var r := st.rooms[id];
    if Unites(st, id, doc) then
      && a.rooms == (st.rooms - {r.source})[id := United(r, st.rooms[r.source], doc)]
      && a.gone == st.gone[r.source := st.rooms[r.source]]
    else
      && a.rooms.Keys == st.rooms.Keys && a.gone.Keys == st.gone.Keys && a.rooms[id] == Parted(r, doc)
      && (forall o :: o in st.rooms && o != id ==> a.rooms[o] == Let(st.rooms[o], r.source))
      && (forall o :: o in st.gone ==> a.gone[o] == Let(st.gone[o], r.source))
  }

  /** The source of a merge that is called off is free again. */
  function Let(o: Room, source: nat): Room { if o.id == source then o.(target := 0) else o }

  lemma CommittedTable(st: State, id: nat, doc: HostDoc)
    requires id in st.rooms && doc.HostDoc? && st.rooms[id].id == id && st.rooms[id].source in st.rooms && st.rooms[id].source != id
    ensures var (r, st1) := (st.rooms[id], Adopt(st, id, doc));
      && id in st1.rooms && st1.rooms[id].source in st1.rooms
      && CommitMerge(st1, id).rooms == (st.rooms - {r.source})[id := United(r, st.rooms[r.source], doc)]
      && CommitMerge(st1, id).gone == st.gone[r.source := st.rooms[r.source]]
  {
  }

  lemma CancelledTable(st: State, id: nat, doc: HostDoc)
    requires id in st.rooms && doc.HostDoc? && st.rooms[id].id == id && st.rooms[id].source != 0 && st.rooms[id].source != id && Keyed(st)
    ensures var (r, st1) := (st.rooms[id], Adopt(st, id, doc));
      && id in st1.rooms
      && var a := CancelMerge(st1, id);
      && a.rooms.Keys == st.rooms.Keys && a.gone.Keys == st.gone.Keys && a.rooms[id] == Parted(r, doc)
      && (forall o :: o in st.rooms && o != id ==> a.rooms[o] == Let(st.rooms[o], r.source))
      && (forall o :: o in st.gone ==> a.gone[o] == Let(st.gone[o], r.source))
  {
  }

  lemma FinishEither(st: State, id: nat, doc: HostDoc)
    requires Inv(st) && id in st.rooms && doc.HostDoc?
    ensures TableKeyed(Adopt(st, id, doc)) && id in Adopt(st, id, doc).rooms
    ensures var st1 := Adopt(st, id, doc); var f := FinishMerge(st1, id);
      && (st.rooms[id].source == 0 ==> f == Outcome(st1, []))
      && (Commits(st, id, doc) ==>
            && st.rooms[id].source in st.rooms && st.rooms[id].source != id
            && st1.rooms[id].source in st1.rooms && f.state == CommitMerge(st1, id))
      && (!Commits(st, id, doc) && st.rooms[id].source != 0 ==>
            st.rooms[id].source != id && f == Outcome(CancelMerge(st1, id), [UpdateNotice(CancelMerge(st1, id), CancelMerge(st1, id).rooms[id])]))
  {
    Adopted(st, id, doc);
    InvParts(st);
    if st.rooms[id].source == 0 { FinishMergeIdle(Adopt(st, id, doc), id); }
    if st.rooms[id].source != 0 { SourceThere(st, id); }
    hide Inv, Core, Keyed, Links, RoomsOk, LeadersOnce, QueueOk, MergeStands, Expected, CancelMerge, CommitMerge, Adopt;
  }

  lemma SourceThere(st: State, id: nat)
    requires Inv(st) && id in st.rooms && st.rooms[id].source != 0
    ensures st.rooms[id].source in st.rooms || st.rooms[id].source in st.gone
    ensures st.rooms[id].source != id && Keyed(st)
    ensures st.rooms[id].source in st.rooms ==> st.rooms[st.rooms[id].source].id == st.rooms[id].source
    ensures st.rooms[id].source in st.gone ==> st.gone[st.rooms[id].source].id == st.rooms[id].source
  {
    InvParts(st);
    assert Paired(st.rooms[id], Find(st, st.rooms[id].source));
    hide Inv, RoomsOk, LeadersOnce, QueueOk;
  }

  lemma UnitedFinished(st: State, id: nat, doc: HostDoc)
    requires id in st.rooms && doc.HostDoc? && st.rooms[id].id == id && st.rooms[id].source in st.rooms && st.rooms[id].source != id
    requires Unites(st, id, doc)
    ensures var st1 := Adopt(st, id, doc); id in st1.rooms && st1.rooms[id].source in st1.rooms && Finished(st, id, doc, CommitMerge(st1, id))
  {
    CommittedTable(st, id, doc);
    hide Unites, Adopt, CommitMerge;
  }

  lemma PartedFinished(st: State, id: nat, doc: HostDoc)
    requires id in st.rooms && doc.HostDoc? && st.rooms[id].id == id && st.rooms[id].source != 0 && st.rooms[id].source != id && Keyed(st)
    requires !Unites(st, id, doc)
    ensures id in Adopt(st, id, doc).rooms && Finished(st, id, doc, CancelMerge(Adopt(st, id, doc), id))
  {
    CancelledTable(st, id, doc);
    hide Unites, Adopt, CancelMerge;
  }

  lemma IdleFinished(st: State, id: nat, doc: HostDoc, a: State)
    requires id in st.rooms && doc.HostDoc? && st.rooms[id].source == 0 && Keyed(st)
    requires a.rooms == st.rooms[id := st.rooms[id].(open := doc.open, states := doc.states)] && a.gone == st.gone
    ensures Finished(st, id, doc, a)
  {
  }

  lemma FinishedTable(st: State, id: nat, doc: HostDoc)
    requires Inv(st) && id in st.rooms && doc.HostDoc?
    ensures TableKeyed(Adopt(st, id, doc)) && id in Adopt(st, id, doc).rooms
    ensures Finished(st, id, doc, FinishMerge(Adopt(st, id, doc), id).state)
  {
    hide *;
    FinishEither(st, id, doc);
    UnitesExactly(st, id, doc);
    InvAt(st, id);
    InvKeyed(st);
    if Commits(st, id, doc) {
      UnitedFinished(st, id, doc);
    } else if st.rooms[id].source != 0 {
      PartedFinished(st, id, doc);
    } else {
      Adopted(st, id, doc);
      IdleFinished(st, id, doc, Adopt(st, id, doc));
    }
  }

  // ---------- who boards from the queue ----------

  /** Everybody aboard, and the room itself, has room for `people`. */
  ghost predicate RoomFor(cap: int, aboard: seq<Search>, people: nat) { people <= cap && forall p :: p in aboard ==> people <= p.max }

  /** Who of the queue gets a seat beside `people` others: one after the other, whoever asks for
      this filter and fits with all who got a seat before. */
  ghost function Boarders(people: nat, cap: int, filter: string, q: seq<Search>): seq<Search> {
    if q == [] then [] else
      var b, p := Boarders(people, cap, filter, q[..|q|-1]), q[|q|-1];
      if p.filter == filter && RoomFor(cap, b + [p], people + SeatSum(b + [p])) then b + [p] else b
  }

  function Tightest(cap: int, q: seq<Search>): int {
    if q == [] then cap else
      var c, p := Tightest(cap, q[..|q|-1]), q[|q|-1];
      if p.max < c then p.max else c
  }

  lemma {:induction false} TightestFits(cap: int, q: seq<Search>, people: nat)
    ensures people <= Tightest(cap, q) <==> RoomFor(cap, q, people)
  {
    if q != [] {
      TightestFits(cap, q[..|q|-1], people);
      assert q == q[..|q|-1] + [q[|q|-1]];
    }
  }

  lemma TightestSnoc(cap: int, q: seq<Search>, p: Search)
    ensures Tightest(cap, q + [p]) == if p.max < Tightest(cap, q) then p.max else Tightest(cap, q)
  {
    assert (q + [p])[..|q|] == q;
  }

  lemma AllMembersSnoc(q: seq<Search>, p: Search)
    ensures AllMembers(q + [p]) == AllMembers(q) + MemberSet(p)
  {
    assert forall x :: x in q + [p] <==> x in q || x == p;
  }

  /** The room with these boarders. */
  ghost predicate Boarded(r: Room, b: seq<Search>, r': Room) {
    r' == r.(players := r.players + b, capacity := Tightest(r.capacity, b), states := r.states - AllMembers(b))
  }

  lemma BoardedSnoc(r: Room, b: seq<Search>, r': Room, p: Search)
    requires Boarded(r, b, r')
    ensures Boarded(r, b + [p], Seat(r', p))
  {
    AllMembersSnoc(b, p);
    TightestSnoc(r.capacity, b, p);
    assert r.players + (b + [p]) == (r.players + b) + [p];
    assert r.states - (AllMembers(b) + MemberSet(p)) == (r.states - AllMembers(b)) - MemberSet(p);
    hide Tightest, AllMembers;
  }

  lemma BoardedNone(r: Room)
    ensures Boarded(r, [], r)
  {
    assert r.players + [] == r.players;
    assert r.states - AllMembers([]) == r.states;
  }

  lemma FitsExactly(r: Room, b: seq<Search>, r': Room, p: Search)
    requires Boarded(r, b, r') && RoomOk(r') && NoneFailed(r') && p.seats == |p.members|
    ensures Fits(r', p) <==> p.filter == r.host.filter && RoomFor(r.capacity, b + [p], SeatSum(r.players) + SeatSum(b + [p]))
  {
    TakenBound(r', r'.players);
    SeatSumConcat(r.players, b);
    SeatSumAppend(b, p);
    TightestFits(r.capacity, b + [p], SeatSum(r.players) + SeatSum(b + [p]));
    TightestSnoc(r.capacity, b, p);
    hide Tightest, RoomFor, SeatSum, Taken, RoomOk, NoneFailed;
  }

  lemma {:induction false} BoardersFill(r: Room, q: seq<Search>)
    requires RoomOk(r) && NoneFailed(r) && QueueOk(q) && Distinct(q) && Distinct(r.players) && Pids(q) !! Pids(r.players)
    ensures FillFrom(r, q).added == Boarders(SeatSum(r.players), r.capacity, r.host.filter, q)
    ensures Boarded(r, FillFrom(r, q).added, FillFrom(r, q).room)
    decreases |q|
  {
    if q == [] { BoardedNone(r); } else {
      var q0, p := q[..|q|-1], q[|q|-1];
      ShorterQueue(r, q);
      BoardersFill(r, q0);
      FillFromOk(r, q0);
      var f := FillFrom(r, q0);
      FilledOk(r, q0, f);
      FitsExactly(r, f.added, f.room, p);
      BoardedSnoc(r, f.added, f.room, p);
      hide Boarded, FillOk, Fits, RoomFor, RoomOk, NoneFailed, QueueOk, Distinct, Pids, SeatSum, Seat;
    }
  }

  lemma FilledOk(r: Room, q: seq<Search>, f: Fill)
    requires FillOk(r, q, f)
    ensures RoomOk(f.room) && NoneFailed(f.room)
  {
  }

  lemma ShorterQueue(r: Room, q: seq<Search>)
    requires q != [] && QueueOk(q) && Distinct(q) && Pids(q) !! Pids(r.players)
    ensures var q0 := q[..|q|-1]; QueueOk(q0) && Distinct(q0) && Pids(q0) !! Pids(r.players)
    ensures q[|q|-1].seats == |q[|q|-1].members|
  {
    var q0, p := q[..|q|-1], q[|q|-1];
    assert q == q0 + [p] && p in q;
    PidsAppend(q0, p);
    ValidBasics(p);
    hide ValidSearch, Pids, Distinct;
  }

  lemma {:induction false} RestIs(r: Room, q: seq<Search>)
    requires Distinct(q)
    ensures FillFrom(r, q).rest == Select(q, NotIn(FillFrom(r, q).added))
    ensures forall p :: p in FillFrom(r, q).added ==> p in q
    decreases |q|
  {
    if q != [] {
      var q0, p := q[..|q|-1], q[|q|-1];
      assert q == q0 + [p];
      PidsAppend(q0, p);
      RestIs(r, q0);
      var f := FillFrom(r, q0);
      NotAmong(q0, p);
      hide Fits, Seat, Distinct, Pids;
      SelectSame(q0, NotIn(f.added), NotIn(f.added + [p]));
      SelectLast(q0, p, NotIn(f.added + [p]));
      SelectLast(q0, p, NotIn(f.added));
    }
  }

  lemma NotAmong(q: seq<Search>, p: Search)
    requires p.conn.pid !in Pids(q)
    ensures p !in q
  {
  }

  lemma {:induction false} SelectSame<T>(q: seq<T>, f: T -> bool, g: T -> bool)
    requires forall x :: x in q ==> (f(x) <==> g(x))
    ensures Select(q, f) == Select(q, g)
  {
    if q != [] {
      assert q[|q|-1] in q;
      SelectSame(q[..|q|-1], f, g);
    }
  }

  lemma SelectLast<T>(q: seq<T>, x: T, keep: T -> bool)
    ensures Select(q + [x], keep) == Select(q, keep) + if keep(x) then [x] else []
  {
    assert (q + [x])[..|q|] == q;
  }

  /** What backfill does. */
  lemma BackfillExactly(st: State, id: nat) returns (b: seq<Search>)
    requires Inv(st) && id in st.rooms
    ensures var r := st.rooms[id]; b == if r.open && r.target == 0 && r.source == 0
      then Boarders(SeatSum(r.players), r.capacity, r.host.filter, st.waiting) else []
    ensures id in Backfill(st, id).state.rooms
    ensures var r' := Backfill(st, id).state.rooms[id];
      Boarded(st.rooms[id], b, r'.(version := st.rooms[id].version)) && r'.version == st.rooms[id].version + if b == [] then 0 else 1
    ensures var u := Backfill(st, id).state; u.rooms == st.rooms[id := u.rooms[id]] && u.gone == st.gone && u.ids == st.ids
    ensures Backfill(st, id).state.waiting == Select(st.waiting, NotIn(b))
    ensures forall p :: p in b ==> p in st.waiting
  {
    hide *;
    var r := st.rooms[id];
    b := [];
    InvAt(st, id);
    InvParts(st);
    BackfillState(st, id);
    BoardedNone(r);
    if r.open && r.target == 0 && r.source == 0 {
      b := FillFrom(r, st.waiting).added;
      BoardersFill(r, st.waiting);
      RestIs(r, st.waiting);
      FillSame(r, st.waiting);
      FilledRoom(st, id, FillFrom(r, st.waiting), r);
    } else {
      SelectAll(st.waiting);
      assert st.rooms == st.rooms[id := st.rooms[id]];
    }
  }

  lemma FilledRoom(st: State, id: nat, f: Fill, r: Room)
    requires id in st.rooms && st.rooms[id] == r && r.id == id && Boarded(r, f.added, f.room)
    ensures f.room.id == id && f.room.version == r.version
    ensures f.added == [] ==> f.room == r && st.(waiting := f.rest).rooms == st.rooms[id := r]
    ensures WithRoom(st.(waiting := f.rest), Bump(f.room)) == State(f.rest, st.rooms[id := f.room.(version := r.version + 1)], st.gone, st.ids)
    ensures f.room.(version := r.version + 1).(version := r.version) == f.room
  {
    BoardedNone(r);
    assert st.rooms == st.rooms[id := r];
  }

  lemma {:induction false} SelectAll(q: seq<Search>)
    ensures Select(q, NotIn([])) == q
  {
    if q != [] { SelectAll(q[..|q|-1]); }
  }

  // ---------- which room is reserved ----------

  /** Room `id` may reserve another: it is open, everybody in it is connected, and it is in no merge. */
  ghost predicate Inviting(u: State, id: nat)
    requires id in u.rooms
  {
    var d := u.rooms[id];
    d.open && AllConnected(d.states, d.players) && d.source == 0 && (d.target == 0 || d.target !in u.rooms)
  }

  /** Room `o` may be merged into it: ready as well, smaller or younger, small enough, and of other people. */
  ghost predicate Joinable(u: State, id: nat, o: nat)
    requires id in u.rooms
  {
    o != id && o in u.rooms &&
    var (d, q) := (u.rooms[id], u.rooms[o]);
    && q.target == 0 && q.source == 0 && q.open && AllConnected(q.states, q.players) && q.host.filter == d.host.filter
    && (SeatSum(q.players) < SeatSum(d.players) || (SeatSum(q.players) == SeatSum(d.players) && id < o))
    && SeatSum(q.players) + SeatSum(d.players) <= q.capacity && SeatSum(q.players) + SeatSum(d.players) <= d.capacity
    && NobodyTwice(q.players, d.players)
  }

  /** The fullest room that may be merged, the oldest among equals. */
  ghost predicate Fullest(u: State, id: nat, s: nat)
    requires id in u.rooms
  {
    && Joinable(u, id, s)
    && forall o :: Joinable(u, id, o) && o != s ==>
         SeatSum(u.rooms[o].players) < SeatSum(u.rooms[s].players) || (SeatSum(u.rooms[o].players) == SeatSum(u.rooms[s].players) && s < o)
  }

  ghost predicate Sound(u: State, o: nat)
    requires o in u.rooms
  {
    RoomOk(u.rooms[o]) && NoneFailed(u.rooms[o]) && u.rooms[o].id == o
  }

  lemma AllSound(u: State)
    requires Inv(u)
    ensures forall o :: o in u.rooms ==> Sound(u, o)
  {
    forall o | o in u.rooms ensures Sound(u, o) { InvAt(u, o); }
    hide Inv, Sound;
  }

  lemma AbsorbExactly(u: State, id: nat, o: nat)
    requires id in u.rooms && o in u.rooms && Sound(u, id) && Sound(u, o) && 0 !in u.rooms && 0 !in u.gone && u.rooms[id].source == 0
    ensures CanAbsorb(u, u.rooms[id], u.rooms[o]) <==> Joinable(u, id, o)
  {
    ReadyExactly(u, u.rooms[id]);
    if u.rooms[o].source == 0 { ReadyExactly(u, u.rooms[o]); }
    hide Occupancy, MergeOpen, AllConnected, RoomOk, NoneFailed, SeatSum;
  }

  lemma BeforeExactly(u: State, a: nat, b: nat)
    requires a in u.rooms && b in u.rooms && Sound(u, a) && Sound(u, b) && 0 !in u.rooms && 0 !in u.gone
    requires u.rooms[a].source == 0 && u.rooms[b].source == 0
    ensures Before(u, u.rooms[a], u.rooms[b]) <==>
      SeatSum(u.rooms[b].players) < SeatSum(u.rooms[a].players) || (SeatSum(u.rooms[b].players) == SeatSum(u.rooms[a].players) && a < b)
  {
    ReadyExactly(u, u.rooms[a]);
    ReadyExactly(u, u.rooms[b]);
    hide Occupancy, MergeOpen, AllConnected, RoomOk, NoneFailed, SeatSum;
  }

  /** With a stale target forgotten the table reads the same to a merge. */
  lemma ForgetSame(u: State, id: nat)
    requires Inv(u) && id in u.rooms
    ensures var v := Forget(u, id);
      && Inv(v) && id in v.rooms && v.rooms == u.rooms[id := u.rooms[id].(target := v.rooms[id].target)] && v.gone == u.gone
      && v.rooms[id].target == (if u.rooms[id].target !in u.rooms then 0 else u.rooms[id].target)
      && v.waiting == u.waiting && v.ids == u.ids
  {
    hide *;
    ForgetKeeps(u, id);
    InvAt(u, id);
    InvKeyed(u);
    ZeroIsNoRoom(u);
    ForgetShape(u, id);
  }

  lemma ForgetShape(u: State, id: nat)
    requires id in u.rooms && u.rooms[id].id == id && 0 !in u.rooms
    ensures var v := Forget(u, id);
      && id in v.rooms && v.rooms == u.rooms[id := u.rooms[id].(target := v.rooms[id].target)] && v.gone == u.gone
      && v.rooms[id].target == (if u.rooms[id].target !in u.rooms then 0 else u.rooms[id].target)
      && v.waiting == u.waiting && v.ids == u.ids
  {
    assert u.rooms == u.rooms[id := u.rooms[id]];
  }

  lemma JoinableSame(u: State, v: State, id: nat, o: nat)
    requires id in u.rooms && v.rooms == u.rooms[id := u.rooms[id].(target := 0)]
    ensures id in v.rooms && (Joinable(u, id, o) <==> Joinable(v, id, o))
  {
    hide AllConnected, SeatSum, NobodyTwice;
  }

  /** The table after reserving `s`, or nothing when `s` is 0. */
  ghost predicate Reserving(u: State, id: nat, s: nat, v: State)
    requires id in u.rooms
  {
    var d := u.rooms[id];
    var target := if d.target !in u.rooms then 0 else d.target;
    && v.waiting == u.waiting && v.gone == u.gone && v.ids == u.ids
    && if s == 0 then v.rooms == u.rooms[id := d.(target := target)] else
       && s in u.rooms && s != id && d.source == 0
       && v.rooms == u.rooms[s := u.rooms[s].(target := id)][id :=
            d.(target := target, source := s, version := d.version + 1, states := d.states - AllMembers(u.rooms[s].players))]
  }

  /** Who startMerge takes, after forgetting. */
  lemma TakesFullest(v: State, id: nat) returns (s: nat)
    requires Inv(v) && id in v.rooms && v.rooms[id].source == 0 && v.rooms[id].target == 0
    ensures TableKeyed(v) && Candidates(v, v.rooms[id]) <= v.rooms.Keys && s == Leader(v, Candidates(v, v.rooms[id]))
    ensures s in v.rooms <==> exists o :: Joinable(v, id, o)
    ensures s in v.rooms ==> Fullest(v, id, s) && s != 0
  {
    hide *;
    InvKeyed(v);
    ZeroIsNoRoom(v);
    AllSound(v);
    CandidatesAre(v, id);
    JoinableThere(v, id);
    var ids := Candidates(v, v.rooms[id]);
    s := Leader(v, ids);
    LeaderIn(v, ids, s);
    if s in v.rooms { LeaderFullest(v, id, ids, s); }
  }

  lemma CandidatesAre(v: State, id: nat)
    requires id in v.rooms && (forall o :: o in v.rooms ==> Sound(v, o)) && 0 !in v.rooms && 0 !in v.gone && v.rooms[id].source == 0
    ensures forall o :: o in Candidates(v, v.rooms[id]) <==> o in v.rooms && Joinable(v, id, o)
    ensures Candidates(v, v.rooms[id]) <= v.rooms.Keys
  {
    hide Sound, CanAbsorb, Joinable;
    forall o | o in v.rooms ensures CanAbsorb(v, v.rooms[id], v.rooms[o]) <==> Joinable(v, id, o) { AbsorbExactly(v, id, o); }
  }

  lemma CandidatesIn(v: State, id: nat)
    requires id in v.rooms
    ensures Candidates(v, v.rooms[id]) <= v.rooms.Keys
  {
    hide CanAbsorb;
  }

  lemma LeaderIn(v: State, ids: set<nat>, s: nat)
    requires TableKeyed(v) && ids <= v.rooms.Keys && 0 !in v.rooms && s == Leader(v, ids)
    ensures s in v.rooms <==> ids != {}
    ensures s in v.rooms ==> s in ids && Leads(v, ids, s)
  {
    hide Before;
  }

  lemma JoinableThere(v: State, id: nat)
    requires id in v.rooms
    ensures forall o :: Joinable(v, id, o) ==> o in v.rooms && o != id && v.rooms[o].source == 0
  {
  }

  lemma LeaderFullest(v: State, id: nat, ids: set<nat>, s: nat)
    requires id in v.rooms && Leads(v, ids, s) && (forall o :: o in v.rooms ==> Sound(v, o)) && 0 !in v.rooms && 0 !in v.gone
    requires (forall o :: o in v.rooms ==> (o in ids <==> Joinable(v, id, o))) && s in v.rooms
    ensures Fullest(v, id, s)
  {
    JoinableThere(v, id);
    forall o | Joinable(v, id, o) && o != s
      ensures SeatSum(v.rooms[o].players) < SeatSum(v.rooms[s].players) || (SeatSum(v.rooms[o].players) == SeatSum(v.rooms[s].players) && s < o)
    {
      BeforeExactly(v, s, o);
    }
    hide Joinable, SeatSum, Before, Sound;
  }

  lemma StartMergeIs(u: State, id: nat, s: nat)
    requires TableKeyed(u) && id in u.rooms && TableKeyed(Forget(u, id)) && id in Forget(u, id).rooms
    requires Candidates(Forget(u, id), Forget(u, id).rooms[id]) <= Forget(u, id).rooms.Keys
    requires s == Leader(Forget(u, id), Candidates(Forget(u, id), Forget(u, id).rooms[id]))
    ensures var v := Forget(u, id); var d := v.rooms[id];
      StartMerge(u, id).state == if d.target != 0 || d.source != 0 || !MergeOpen(v, d) || s !in v.rooms then v
        else WithRoom(WithRoom(v, v.rooms[s].(target := id)), Reserved(d, v.rooms[s]))
  {
    hide Leader, Candidates, MergeOpen, WithRoom, Reserved, Forget, UpdateNotice;
  }

  lemma ReservingFrom(u: State, id: nat, v: State, s: nat)
    requires id in u.rooms && id in v.rooms && v.rooms == u.rooms[id := u.rooms[id].(target := v.rooms[id].target)]
    requires v.gone == u.gone && v.waiting == u.waiting && v.ids == u.ids
    requires v.rooms[id].target == (if u.rooms[id].target !in u.rooms then 0 else u.rooms[id].target) && u.rooms[id].id == id
    ensures Reserving(u, id, 0, v)
    ensures s in v.rooms && s != id && s != 0 && u.rooms[s].id == s && u.rooms[id].source == 0 ==>
      Reserving(u, id, s, WithRoom(WithRoom(v, v.rooms[s].(target := id)), Reserved(v.rooms[id], v.rooms[s])))
  {
    if s in v.rooms && s != id {
      assert WithRoom(WithRoom(v, v.rooms[s].(target := id)), Reserved(v.rooms[id], v.rooms[s])).rooms ==
        v.rooms[v.rooms[s].id := v.rooms[s].(target := id)][v.rooms[id].id := Reserved(v.rooms[id], v.rooms[s])];
      assert v.rooms[s] == u.rooms[s];
    }
  }

  /** startMerge reserves exactly when the room may reserve and another may be merged into it, and
      then the fullest. */
  lemma StartMergeExactly(u: State, id: nat) returns (s: nat)
    requires Inv(u) && id in u.rooms
    ensures TableKeyed(u) && Reserving(u, id, s, StartMerge(u, id).state)
    ensures s != 0 <==> Inviting(u, id) && exists o :: Joinable(u, id, o)
    ensures s != 0 ==> Fullest(u, id, s)
  {
    hide *;
    InvKeyed(u);
    ForgetSame(u, id);
    var v := Forget(u, id);
    InvKeyed(v);
    InvParts(v);
    ZeroIsNoRoom(v);
    InvAt(u, id);
    InvAt(v, id);
    CandidatesIn(v, id);
    var l := Leader(v, Candidates(v, v.rooms[id]));
    StartMergeIs(u, id, l);
    ReservingFrom(u, id, v, 0);
    s := 0;
    InvitingIs(u, id, v);
    if v.rooms[id].source == 0 && v.rooms[id].target == 0 {
      l := TakesFullest(v, id);
      FullestSame(u, v, id, l);
      ReadyExactly(v, v.rooms[id]);
      if MergeOpen(v, v.rooms[id]) && l in v.rooms {
        s := l;
        JoinableThere(v, id);
        FullestJoinable(v, id, l);
        InvAt(u, l);
        ReservingFrom(u, id, v, l);
      }
    }
  }

  lemma FullestJoinable(v: State, id: nat, s: nat)
    requires id in v.rooms && Fullest(v, id, s)
    ensures Joinable(v, id, s)
  {
  }

  lemma InvitingIs(u: State, id: nat, v: State)
    requires id in u.rooms && id in v.rooms && v.rooms == u.rooms[id := u.rooms[id].(target := v.rooms[id].target)] && 0 !in v.rooms
    requires v.rooms[id].target == if u.rooms[id].target !in u.rooms then 0 else u.rooms[id].target
    ensures id in v.rooms
    ensures Inviting(u, id) <==>
      v.rooms[id].source == 0 && v.rooms[id].target == 0 && v.rooms[id].open && AllConnected(v.rooms[id].states, v.rooms[id].players)
  {
    hide AllConnected;
  }

  lemma FullestSame(u: State, v: State, id: nat, s: nat)
    requires id in u.rooms && id in v.rooms && v.rooms == u.rooms[id := u.rooms[id].(target := v.rooms[id].target)] && v.rooms[id].target == 0
    ensures id in v.rooms && (Fullest(v, id, s) <==> Fullest(u, id, s))
    ensures (exists o :: Joinable(v, id, o)) <==> exists o :: Joinable(u, id, o)
  {
    forall o ensures Joinable(u, id, o) <==> Joinable(v, id, o) { JoinableSame(u, v, id, o); }
    assert forall o :: Joinable(u, id, o) ==> o in u.rooms && v.rooms[o].players == u.rooms[o].players by { JoinableThere(u, id); }
    hide Joinable, SeatSum;
  }

  // ---------- the whole document ----------

  /** The document is one the server accepts: a complete one, sent by the room's host about its
      current version. */
  ghost predicate Heard(st: State, a: Action) {
    && a.HostSync? && a.doc.HostDoc? && a.doc.complete
    && a.room in st.rooms && st.rooms[a.room].host.conn == a.conn && st.rooms[a.room].version == a.version
  }

  /** The told list: whoever is seated now, and whoever was told before and is not cut from the room. */
  ghost predicate ToldNow(d: Room, doc: HostDoc, kept: seq<Search>, told: set<Conn>)
    requires doc.HostDoc?
  {
    forall c :: c in told <==> c in Conns(kept) || (c in d.notified && forall p :: p in d.players && p.conn == c ==> Stays(d.host.conn.pid, doc.states)(p))
  }

  /** From the table `m` after the merge was settled to the one when nothing more is sent. */
  ghost predicate Settled(m: State, id: nat, doc: HostDoc, kept: seq<Search>, added: seq<Search>, u: State)
    requires id in m.rooms && doc.HostDoc?
  {
    var d := m.rooms[id];
    var h := d.host.conn.pid;
    && Survive(h, doc.states, d.players, kept)
    && added == (if doc.open && d.target == 0 then Boarders(SeatSum(kept), d.capacity, d.host.filter, m.waiting) else [])
    && u.waiting == Select(m.waiting, NotIn(added)) && u.gone == m.gone && u.ids == m.ids
    && id in u.rooms && ToldNow(d, doc, kept, u.rooms[id].notified)
    && u.rooms == m.rooms[id := Room(id, d.version + if added == [] then 0 else 1, Cut(h, doc.states, d.host), kept + added, doc.open,
         doc.states - AllMembers(added), Tightest(d.capacity, added), u.rooms[id].notified, 0, d.target)]
  }

  lemma FinishedRoomIs(st: State, id: nat, doc: HostDoc, a: State)
    requires id in st.rooms && doc.HostDoc? && Finished(st, id, doc, a)
    ensures id in a.rooms
    ensures var d := a.rooms[id];
      && d.id == st.rooms[id].id && d.open == doc.open && d.states == doc.states && d.source == 0
      && d.host == st.rooms[id].host && d.target == st.rooms[id].target
      && st.rooms[id].notified <= d.notified
  {
    hide Unites;
  }

  lemma ReleasedRoom(d: Room, doc: HostDoc, r: Room)
    requires doc.HostDoc? && RoomOk(d) && d.open == doc.open && d.states == doc.states && d.source == 0 && r == Reject(d)
    ensures ToldNow(d, doc, r.players, r.notified + Conns(r.players)) && Survive(d.host.conn.pid, doc.states, d.players, r.players)
    ensures r.(notified := r.notified + Conns(r.players)) == Room(d.id, d.version, Cut(d.host.conn.pid, doc.states, d.host), r.players, doc.open,
      doc.states, d.capacity, r.notified + Conns(r.players), 0, d.target)
    ensures r.notified <= d.notified && r.host.filter == d.host.filter
  {
    RejectIs(d);
    hide Survive, Stays, Reject, RoomOk;
  }

  /** The phases between the merge and a reservation. */
  lemma SettledExactly(st: State, id: nat, doc: HostDoc) returns (kept: seq<Search>, added: seq<Search>)
    requires Inv(st) && id in st.rooms && doc.HostDoc?
    ensures TableKeyed(st) && TableKeyed(Adopt(st, id, doc)) && id in Adopt(st, id, doc).rooms
    ensures var m := FinishMerge(Adopt(st, id, doc), id).state;
      && Finished(st, id, doc, m) && m.waiting == st.waiting && m.ids == st.ids && id in m.rooms
      && Settled(m, id, doc, kept, added, Settle(st, id, doc).state)
      && kept == Sorted(st, id, doc).players
  {
    hide *;
    InvKeyed(st);
    InvAt(st, id);
    SettleParts(st, id, doc);
    FinishedTable(st, id, doc);
    FinishMergeWaits(st, id, doc);
    var m := FinishMerge(Adopt(st, id, doc), id).state;
    FinishedRoomIs(st, id, doc, m);
    AdoptKeeps(st, id, doc);
    FinishMergeKeeps(Adopt(st, id, doc), id);
    FinishMergeIds(st, id, doc);
    AlmostDistinct(m, id);
    ReleasedRoom(m.rooms[id], doc, Sorted(st, id, doc));
    RejectKeeps(m, id);
    ReleaseKeeps(WithRoom(m, Sorted(st, id, doc)), id);
    var c := Release(WithRoom(m, Sorted(st, id, doc)), id).state;
    ReleasedTable(m, id, Sorted(st, id, doc));
    kept := Sorted(st, id, doc).players;
    added := BackfillExactly(c, id);
    BoardedSettled(m, id, doc, kept, added, c, Backfill(c, id).state);
  }

  lemma FinishMergeIds(st: State, id: nat, doc: HostDoc)
    requires id in st.rooms && doc.HostDoc? && TableKeyed(Adopt(st, id, doc)) && id in Adopt(st, id, doc).rooms
    ensures FinishMerge(Adopt(st, id, doc), id).state.ids == st.ids
  {
    hide MergeStands, Expected;
  }

  lemma ReleasedTable(m: State, id: nat, r: Room)
    requires id in m.rooms && r.id == id
    ensures id in WithRoom(m, r).rooms
    ensures var c := Release(WithRoom(m, r), id).state;
      c.rooms == m.rooms[id := r.(notified := r.notified + Conns(r.players))] && c.gone == m.gone && c.waiting == m.waiting && c.ids == m.ids
  {
    hide Expected, Unreleased, Conns;
  }

  lemma BoardedSettled(m: State, id: nat, doc: HostDoc, kept: seq<Search>, added: seq<Search>, c: State, u: State)
    requires id in m.rooms && doc.HostDoc? && id in c.rooms && id in u.rooms && m.rooms[id].id == id && m.rooms[id].source == 0
    requires var d := m.rooms[id]; Survive(d.host.conn.pid, doc.states, d.players, kept) && ToldNow(d, doc, kept, c.rooms[id].notified)
    requires var d := m.rooms[id]; c.rooms[id] == Room(id, d.version, Cut(d.host.conn.pid, doc.states, d.host), kept, doc.open,
      doc.states, d.capacity, c.rooms[id].notified, 0, d.target)
    requires c.rooms == m.rooms[id := c.rooms[id]] && c.gone == m.gone && c.waiting == m.waiting && c.ids == m.ids
    requires var r := c.rooms[id];
      added == if r.open && r.target == 0 && r.source == 0 then Boarders(SeatSum(r.players), r.capacity, r.host.filter, c.waiting) else []
    requires Boarded(c.rooms[id], added, u.rooms[id].(version := c.rooms[id].version))
    requires u.rooms[id].version == c.rooms[id].version + if added == [] then 0 else 1
    requires u.rooms == c.rooms[id := u.rooms[id]] && u.gone == c.gone && u.ids == c.ids && u.waiting == Select(c.waiting, NotIn(added))
    ensures Settled(m, id, doc, kept, added, u)
  {
    hide Survive, ToldNow, Boarders, Tightest, AllMembers, SeatSum;
    CutSame(m.rooms[id].host.conn.pid, doc.states, m.rooms[id].host);
    hide Cut;
    assert u.rooms == m.rooms[id := u.rooms[id]];
  }

  lemma CutSame(host: nat, states: map<nat, int>, p: Search)
    ensures Cut(host, states, p).filter == p.filter && Cut(host, states, p).conn == p.conn && Cut(host, states, p).id == p.id
  {
  }

  /** Nothing was sent before a reservation is looked for. */
  ghost predicate Quiet(st: State, id: nat, kept: seq<Search>, added: seq<Search>)
    requires id in st.rooms
  {
    st.rooms[id].source == 0 && added == [] && Conns(kept) <= st.rooms[id].notified
  }

  lemma QuietExactly(st: State, id: nat, doc: HostDoc, kept: seq<Search>, added: seq<Search>)
    requires Inv(st) && id in st.rooms && doc.HostDoc? && TableKeyed(st) && TableKeyed(Adopt(st, id, doc)) && id in Adopt(st, id, doc).rooms
    requires var m := FinishMerge(Adopt(st, id, doc), id).state;
      Finished(st, id, doc, m) && id in m.rooms && Settled(m, id, doc, kept, added, Settle(st, id, doc).state)
    requires kept == Sorted(st, id, doc).players
    ensures Settle(st, id, doc).out == [] <==> Quiet(st, id, kept, added)
  {
    hide *;
    SettleParts(st, id, doc);
    FinishEither(st, id, doc);
    var a := FinishMerge(Adopt(st, id, doc), id);
    if st.rooms[id].source != 0 {
      if Commits(st, id, doc) { CommitSends(st, id, doc); }
      NotQuiet(st, id, kept, added);
    } else {
      Adopted(st, id, doc);
      var r := Sorted(st, id, doc);
      var c := Release(WithRoom(a.state, r), id);
      ReleaseSends(WithRoom(a.state, r), id);
      BackfillSends(c.state, id);
      SettledVersion(a.state, id, doc, kept, added, Settle(st, id, doc).state);
      SortedTold(st, id, doc, kept);
      QuietParts2(st, id, kept, added);
    }
  }

  lemma CommitSends(st: State, id: nat, doc: HostDoc)
    requires Inv(st) && Commits(st, id, doc) && id in st.rooms && doc.HostDoc? && TableKeyed(Adopt(st, id, doc)) && id in Adopt(st, id, doc).rooms
    ensures FinishMerge(Adopt(st, id, doc), id).out != []
  {
    CommitFinish(st, id, doc);
    InvAt(st, st.rooms[id].source);
    hide Inv, FinishMerge, Commits;
    assert st.rooms[st.rooms[id].source].players != [];
  }

  lemma NotQuiet(st: State, id: nat, kept: seq<Search>, added: seq<Search>)
    requires id in st.rooms && st.rooms[id].source != 0
    ensures !Quiet(st, id, kept, added)
  {
  }

  lemma QuietParts2(st: State, id: nat, kept: seq<Search>, added: seq<Search>)
    requires id in st.rooms && st.rooms[id].source == 0
    ensures Quiet(st, id, kept, added) <==> added == [] && Conns(kept) <= st.rooms[id].notified
  {
  }

  lemma ReleaseSends(b: State, id: nat)
    requires id in b.rooms
    ensures Release(b, id).out == [] <==> Conns(b.rooms[id].players) <= b.rooms[id].notified
  {
    NobodyToTell(b.rooms[id].players, b.rooms[id].notified);
    hide Unreleased, Expected, Conns, WithRoom;
  }

  lemma NobodyToTell(q: seq<Search>, told: set<Conn>)
    ensures Unreleased(q, told) == [] <==> Conns(q) <= told
  {
    UnreleasedOf(q, told);
    NoConns(Unreleased(q, told));
    assert Conns(q) - told == {} <==> Conns(q) <= told;
    hide Unreleased, Conns;
  }

  lemma NoConns(q: seq<Search>)
    ensures q == [] <==> Conns(q) == {}
  {
    if q != [] { assert q[0].conn in Conns(q); }
  }

  lemma BackfillSends(c: State, id: nat)
    requires TableKeyed(c) && id in c.rooms
    ensures id in Backfill(c, id).state.rooms
    ensures Backfill(c, id).out == [] <==> Backfill(c, id).state.rooms[id].version == c.rooms[id].version
  {
    FillSame(c.rooms[id], c.waiting);
    hide FillFrom, Expected;
  }

  lemma SettledVersion(m: State, id: nat, doc: HostDoc, kept: seq<Search>, added: seq<Search>, u: State)
    requires id in m.rooms && doc.HostDoc? && Settled(m, id, doc, kept, added, u)
    ensures id in u.rooms && u.rooms[id].version == m.rooms[id].version + if added == [] then 0 else 1
  {
    hide Survive, ToldNow, Boarders, Tightest, AllMembers;
  }

  /** Rejection takes no survivor off the told list. */
  lemma SortedTold(st: State, id: nat, doc: HostDoc, kept: seq<Search>)
    requires Inv(st) && id in st.rooms && doc.HostDoc? && st.rooms[id].source == 0
    requires TableKeyed(st) && TableKeyed(Adopt(st, id, doc)) && id in Adopt(st, id, doc).rooms && kept == Sorted(st, id, doc).players
    ensures FinishMerge(Adopt(st, id, doc), id).state.rooms[id].version == Sorted(st, id, doc).version == st.rooms[id].version
    ensures Conns(kept) <= Sorted(st, id, doc).notified <==> Conns(kept) <= st.rooms[id].notified
  {
    InvAt(st, id);
    FinishEither(st, id, doc);
    Adopted(st, id, doc);
    var d := Adopt(st, id, doc).rooms[id];
    assert Sorted(st, id, doc) == Reject(d);
    AdoptKeeps(st, id, doc);
    AlmostDistinct(Adopt(st, id, doc), id);
    hide Inv, FinishMerge, Sorted, Adopt, Almost, Reject, Commits;
    SurvivorsTold(d);
  }

  lemma SurvivorsTold(d: Room)
    requires RoomOk(d) && Distinct(d.players)
    ensures Reject(d).version == d.version
    ensures forall c :: c in Conns(Reject(d).players) ==> (c in Reject(d).notified <==> c in d.notified)
  {
    RejectIs(d);
    RejectSame(d);
    forall c | c in Conns(Reject(d).players) ensures forall p :: p in d.players && p.conn == c ==> Stays(d.host.conn.pid, d.states)(p) {
      var p' :| p' in Reject(d).players && p'.conn == c;
      TrimAllOf(d, d.players, p');
      var x :| x in d.players && p' == Trim(d, x) && p'.members != [];
      TrimIsCut(d, x);
      forall p | p in d.players && p.conn == c ensures Stays(d.host.conn.pid, d.states)(p) { SameConnSameSearch(d.players, p, x); }
    }
    hide Survive, Stays, Reject, RoomOk;
  }

  lemma HeardAccepts(st: State, a: Action)
    ensures Heard(st, a) ==> Accepts(st, a.conn, a.room, a.version, a.doc)
    ensures TableKeyed(st) && a.HostSync? && !Heard(st, a) ==> Step(st, a) == Outcome(st, [])
  {
    hide Settle, StartMerge;
  }

  /** A document the server does not accept changes nothing. An accepted one does the following and
      nothing else. First the pending merge is carried out, exactly if `Unites`, or called off
      (`Finished`). Then everybody reported in state 3 leaves the room, searches without anyone else
      go and are off the told list, the rest is told, and the queue boards if the room is open and
      promised to no other (`Settled`). If all that sent nothing, the fullest room that may be
      merged into this one is reserved, if there is one (`Reserving`). */
  lemma SyncedExactly(st: State, a: Action) returns (m: State, kept: seq<Search>, added: seq<Search>, u: State, s: nat)
    requires Inv(st) && a.HostSync?
    ensures TableKeyed(st) && (!Heard(st, a) ==> Step(st, a) == Outcome(st, []))
    ensures Heard(st, a) ==>
      && Finished(st, a.room, a.doc, m) && m.waiting == st.waiting && m.ids == st.ids && a.room in m.rooms
      && Settled(m, a.room, a.doc, kept, added, u) && a.room in u.rooms
      && (Quiet(st, a.room, kept, added) ==>
            && Reserving(u, a.room, s, Step(st, a).state) && (s != 0 ==> Fullest(u, a.room, s))
            && (s != 0 <==> Inviting(u, a.room) && exists o :: Joinable(u, a.room, o)))
      && (!Quiet(st, a.room, kept, added) ==> s == 0 && Step(st, a).state == u)
  {
    InvKeyed(st);
    HeardAccepts(st, a);
    m, kept, added, u, s := st, [], [], st, 0;
    if Heard(st, a) {
      var id := a.room;
      assert id in st.rooms && a.doc.HostDoc?;
      hide *;
      kept, added := SettledExactly(st, id, a.doc);
      m, u := FinishMerge(Adopt(st, id, a.doc), id).state, Settle(st, id, a.doc).state;
      QuietExactly(st, id, a.doc, kept, added);
      StepSync(st, a);
      SyncOut(st, a.conn, id, a.version, a.doc);
      SettleKeeps(st, id, a.doc);
      if Quiet(st, id, kept, added) { s := StartMergeExactly(u, id); }
    }
  }

  // ---------- who was cut from a room ----------

  /** Everybody in the search is reported as timed out, and nobody in it is the host's account. */
  ghost predicate Lost(r: Room, doc: HostDoc, p: Search)
    requires doc.HostDoc?
  {
    forall m :: m in p.members ==> m != r.host.conn.pid && m in doc.states && doc.states[m] == 3
  }

  lemma LostIsCut(r: Room, doc: HostDoc, p: Search)
    requires doc.HostDoc?
    ensures Stays(r.host.conn.pid, doc.states)(p) <==> !Lost(r, doc, p)
  {
  }

  lemma {:induction false} SurvivorFrom(host: nat, states: map<nat, int>, q: seq<Search>, kept: seq<Search>, x: Search)
    requires Survive(host, states, q, kept) && x in kept
    ensures exists p :: p in q && Stays(host, states)(p) && x == Cut(host, states, p)
  {
    var s := Select(q, Stays(host, states));
    var i :| 0 <= i < |kept| && kept[i] == x;
    SelectMember(q, Stays(host, states), s[i]);
    hide Stays, Cut, Select;
  }

  lemma SurvivorIn(host: nat, states: map<nat, int>, q: seq<Search>, kept: seq<Search>, p: Search)
    requires Survive(host, states, q, kept) && p in q && Stays(host, states)(p)
    ensures Cut(host, states, p) in kept
  {
    var s := Select(q, Stays(host, states));
    SelectMember(q, Stays(host, states), p);
    hide Stays, Cut, Select;
    var i :| 0 <= i < |s| && s[i] == p;
    assert kept[i] == Cut(host, states, p);
  }

  /** Who is in the room once the merge is settled: whoever was, and whoever was merged in. */
  lemma MergedPlayers(st: State, id: nat, doc: HostDoc, m: State)
    requires id in st.rooms && doc.HostDoc? && Finished(st, id, doc, m)
    ensures id in m.rooms && m.rooms[id].host == st.rooms[id].host && m.rooms[id].target == st.rooms[id].target
    ensures Unites(st, id, doc) ==>
      && m.rooms[id].players == st.rooms[id].players + st.rooms[st.rooms[id].source].players
      && m.rooms[id].notified == st.rooms[id].notified + set p | p in st.rooms[st.rooms[id].source].players :: p.conn
    ensures !Unites(st, id, doc) ==> m.rooms[id].players == st.rooms[id].players && m.rooms[id].notified == st.rooms[id].notified
  {
    hide Unites;
  }

  lemma SettledRoom(m: State, id: nat, doc: HostDoc, kept: seq<Search>, added: seq<Search>, u: State)
    requires id in m.rooms && doc.HostDoc? && Settled(m, id, doc, kept, added, u)
    ensures id in u.rooms && u.rooms[id].players == kept + added && ToldNow(m.rooms[id], doc, kept, u.rooms[id].notified)
    ensures Survive(m.rooms[id].host.conn.pid, doc.states, m.rooms[id].players, kept)
    ensures u.rooms[id].version == m.rooms[id].version + if added == [] then 0 else 1
    ensures forall o :: o in u.rooms && o != id ==> o in m.rooms && u.rooms[o] == m.rooms[o]
    ensures forall o :: o in m.rooms ==> o in u.rooms
  {
    hide Survive, ToldNow, Boarders, Tightest, AllMembers;
  }

  lemma ReservedRoom(u: State, id: nat, s: nat, v: State)
    requires id in u.rooms && Reserving(u, id, s, v)
    ensures id in v.rooms && v.rooms[id].players == u.rooms[id].players && v.rooms[id].notified == u.rooms[id].notified
    ensures forall o :: o in u.rooms ==> o in v.rooms && v.rooms[o].players == u.rooms[o].players
  {
    hide AllMembers;
  }

  lemma AddedWait(m: State, id: nat, doc: HostDoc, kept: seq<Search>, added: seq<Search>, u: State)
    requires id in m.rooms && doc.HostDoc? && Settled(m, id, doc, kept, added, u)
    ensures forall p :: p in added ==> p in m.waiting
  {
    BoardersWait(SeatSum(kept), m.rooms[id].capacity, m.rooms[id].host.filter, m.waiting);
    hide Survive, ToldNow, Boarders, Tightest, AllMembers;
  }

  lemma {:induction false} BoardersWait(people: nat, cap: int, filter: string, q: seq<Search>)
    ensures forall p :: p in Boarders(people, cap, filter, q) ==> p in q
  {
    if q != [] { BoardersWait(people, cap, filter, q[..|q|-1]); }
  }

  /** The room of an accepted document afterwards: its people, and its told list. */
  ghost predicate After(st: State, a: Action, d: Room, kept: seq<Search>, added: seq<Search>)
    requires Heard(st, a) && TableKeyed(st)
  {
    var st' := Step(st, a).state;
    && a.room in st'.rooms && st'.rooms[a.room].players == kept + added
    && d.host == st.rooms[a.room].host
    && ToldNow(d, a.doc, kept, st'.rooms[a.room].notified) && Survive(d.host.conn.pid, a.doc.states, d.players, kept)
    && (forall p :: p in added ==> p in st.waiting)
    && (Unites(st, a.room, a.doc) ==>
          && d.players == st.rooms[a.room].players + st.rooms[st.rooms[a.room].source].players
          && d.notified == st.rooms[a.room].notified + set p | p in st.rooms[st.rooms[a.room].source].players :: p.conn)
    && (!Unites(st, a.room, a.doc) ==> d.players == st.rooms[a.room].players && d.notified == st.rooms[a.room].notified)
  }

  lemma AfterDocument(st: State, a: Action) returns (d: Room, kept: seq<Search>, added: seq<Search>)
    requires Inv(st) && Heard(st, a)
    ensures TableKeyed(st) && After(st, a, d, kept, added)
  {
    assert a.HostSync? && a.room in st.rooms && a.doc.HostDoc?;
    hide Inv, Heard, Finished, Settled, Reserving, Unites, Survive, ToldNow, Step, Quiet, Fullest, Inviting, Joinable;
    var m, u, s;
    m, kept, added, u, s := SyncedExactly(st, a);
    d := m.rooms[a.room];
    MergedPlayers(st, a.room, a.doc, m);
    SettledRoom(m, a.room, a.doc, kept, added, u);
    AddedWait(m, a.room, a.doc, kept, added, u);
    if Quiet(st, a.room, kept, added) { ReservedRoom(u, a.room, s, Step(st, a).state); }
  }

  /** A seated search of which everybody is reported as timed out is gone from the room after the
      host's document, and its connection is off the room's told list. */
  lemma RejectedIsOff(st: State, a: Action, p: Search)
    requires Inv(st) && Heard(st, a) && p in st.rooms[a.room].players && Lost(st.rooms[a.room], a.doc, p)
    ensures TableKeyed(st) && a.room in Step(st, a).state.rooms
    ensures var r := Step(st, a).state.rooms[a.room]; p.conn !in Conns(r.players) && p.conn !in r.notified
  {
    InvParts(st);
    InvAt(st, a.room);
    var d, kept, added := AfterDocument(st, a);
    LostIsCut(st.rooms[a.room], a.doc, p);
    hide Inv, Step, Survive, Stays, Unites, Lost, Heard, LeadersOnce, QueueOk, Links, RoomsOk, Keyed, RoomOk, NoneFailed;
    assert p in d.players;
    NotKept(st, a, d, kept, p);
    NotAdded(st, a.room, added, p);
    ConnsConcat(kept, added);
  }

  /** Two seated searches of one connection are one search, before and after a merge. */
  lemma OneOfEach(st: State, id: nat, doc: HostDoc, q: seq<Search>)
    requires Inv(st) && id in st.rooms && doc.HostDoc?
    requires q == if Unites(st, id, doc) then st.rooms[id].players + st.rooms[st.rooms[id].source].players else st.rooms[id].players
    ensures Distinct(q)
  {
    InvParts(st);
    InvAt(st, id);
    if Unites(st, id, doc) {
      SourceOf(st, id);
      InvAt(st, st.rooms[id].source);
      PidsConcat(st.rooms[id].players, st.rooms[st.rooms[id].source].players);
    }
    hide Inv, QueueOk, Links, RoomsOk, Keyed, RoomOk, NoneFailed, Pids, Distinct;
  }

  lemma NotKept(st: State, a: Action, d: Room, kept: seq<Search>, p: Search)
    requires Inv(st) && Heard(st, a) && p in d.players && !Stays(d.host.conn.pid, a.doc.states)(p)
    requires d.players == if Unites(st, a.room, a.doc) then st.rooms[a.room].players + st.rooms[st.rooms[a.room].source].players else st.rooms[a.room].players
    requires Survive(d.host.conn.pid, a.doc.states, d.players, kept)
    ensures p.conn !in Conns(kept)
  {
    OneOfEach(st, a.room, a.doc, d.players);
    if p.conn in Conns(kept) {
      var x :| x in kept && x.conn == p.conn;
      SurvivorFrom(d.host.conn.pid, a.doc.states, d.players, kept, x);
      var y :| y in d.players && Stays(d.host.conn.pid, a.doc.states)(y) && x == Cut(d.host.conn.pid, a.doc.states, y);
      SameConnSameSearch(d.players, p, y);
    }
    hide Inv, Survive, Stays, Unites, Heard, Distinct;
  }

  lemma NotAdded(st: State, id: nat, added: seq<Search>, p: Search)
    requires Inv(st) && id in st.rooms && (forall x :: x in added ==> x in st.waiting) && p in st.rooms[id].players
    ensures p.conn !in Conns(added)
  {
    forall x | x in added ensures x.conn != p.conn {
      WaitingApart(st, id, x);
      LedIn(st.rooms[id].players, p);
    }
    hide Inv;
  }

  lemma LedIn(q: seq<Search>, p: Search)
    requires p in q
    ensures p.conn.pid in Pids(q) && p.conn in Conns(q)
  {
  }

  /** A search of the pending source with somebody reported as timed out is not merged in: it stays
      where it was, and the source on the table. */
  lemma LostIsNotMoved(st: State, a: Action, p: Search, lost: nat)
    requires Inv(st) && Heard(st, a) && st.rooms[a.room].source in st.rooms && p in st.rooms[st.rooms[a.room].source].players
    requires lost in p.members && lost in a.doc.states && a.doc.states[lost] == 3
    ensures var (src, st') := (st.rooms[a.room].source, Step(st, a).state);
      src in st'.rooms && p in st'.rooms[src].players && a.room in st'.rooms && p.conn !in Conns(st'.rooms[a.room].players)
  {
    var id, src := a.room, st.rooms[a.room].source;
    SourceOf(st, id);
    assert !Unites(st, id, a.doc);
    var d, kept, added := AfterDocument(st, a);
    var m, kept', added', u, s := SyncedExactly(st, a);
    assert m.rooms[src].players == st.rooms[src].players;
    SettledRoom(m, id, a.doc, kept', added', u);
    NotQuiet(st, id, kept', added');
    hide Inv, Step, Survive, Stays, Unites, Heard, Settled, Reserving, Finished, Quiet, Fullest, Inviting, Joinable, ToldNow, RoomOk, NoneFailed;
    NotAdded(st, src, added, p);
    SourceApart(st, id, d, kept, a.doc, p);
    ConnsConcat(kept, added);
  }

  lemma SourceApart(st: State, id: nat, d: Room, kept: seq<Search>, doc: HostDoc, p: Search)
    requires Inv(st) && id in st.rooms && doc.HostDoc? && st.rooms[id].source in st.rooms && p in st.rooms[st.rooms[id].source].players
    requires d.players == st.rooms[id].players && Survive(d.host.conn.pid, doc.states, d.players, kept)
    ensures p.conn !in Conns(kept)
  {
    SourceOf(st, id);
    InvParts(st);
    LedIn(st.rooms[st.rooms[id].source].players, p);
    assert p.conn.pid !in Pids(st.rooms[id].players);
    KeptLeaders(d.host.conn.pid, doc.states, d.players, kept);
    hide Inv, Survive, Stays, LeadersOnce, QueueOk, Links, RoomsOk, Keyed, RoomOk, NoneFailed;
  }

  lemma KeptLeaders(host: nat, states: map<nat, int>, q: seq<Search>, kept: seq<Search>)
    requires Survive(host, states, q, kept)
    ensures forall x :: x in kept ==> x.conn in Conns(q) && x.conn.pid in Pids(q)
  {
    forall x | x in kept ensures x.conn in Conns(q) && x.conn.pid in Pids(q) {
      SurvivorFrom(host, states, q, kept, x);
      var y :| y in q && Stays(host, states)(y) && x == Cut(host, states, y);
      LedIn(q, y);
    }
    hide Survive, Stays;
  }
}
