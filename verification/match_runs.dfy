/** Runs of the matchmaker: every interleaving of its calls, and what holds in all of them. */
module MatchRuns {
  import opened MatchTypes
  import opened MatchSteps
  import opened MatchInvariant
  import opened MatchSync
  import opened MatchProgress

  /** One locked call. `DrawId` is a search being parsed: it takes an id from the shared counter. */
  datatype Action =
    | DrawId
    | Ask(s: Search)
    | Withdraw(conn: Conn, search: nat)
    | Quit(conn: Conn, room: nat)
    | HostSync(conn: Conn, room: nat, version: nat, doc: HostDoc)

  predicate Legal(a: Action) { a.Ask? ==> ValidSearch(a.s) }
  ghost predicate AllLegal(run: seq<Action>) { forall a :: a in run ==> Legal(a) }

  ghost function Step(st: State, a: Action): Outcome
    requires TableKeyed(st)
  {
    match a
    case DrawId => Outcome(st.(ids := st.ids + 1), [])
    case Ask(s) => Enqueue(st, s)
    case Withdraw(c, id) => Outcome(Cancel(st, c, id), [])
    case Quit(c, id) => Outcome(Leave(st, c, id), [])
    case HostSync(c, id, version, doc) => Sync(st, c, id, version, doc)
  }

  const EMPTY: State := State([], map[], map[], 0)

  /** Every call keeps the invariant. */
  lemma StepKeeps(st: State, a: Action)
    requires Inv(st) && Legal(a)
    ensures TableKeyed(st) && Inv(Step(st, a).state)
  {
    InvKeyed(st);
    match a
    case DrawId => DrawKeeps(st);
    case Ask(s) => EnqueueKeeps(st, s);
    case Withdraw(c, id) => CancelKeeps(st, c, id);
    case Quit(c, id) => LeaveKeeps(st, c, id);
    case HostSync(c, id, version, doc) => SyncKeeps(st, c, id, version, doc);
  }

  lemma DrawKeeps(st: State)
    requires Inv(st)
    ensures Inv(st.(ids := st.ids + 1))
  {
    hide NoneFailed, RoomOk, LeadersOnce, QueueOk;
    var st' := st.(ids := st.ids + 1);
    assert LeadersOnce(st') by { SameSeatsKeepLeaders(st, st'); }
    forall id | id in st'.rooms && st'.rooms[id].source != 0
      ensures st'.rooms[id].source in st'.rooms || st'.rooms[id].source in st'.gone
      ensures Paired(st'.rooms[id], Find(st', st'.rooms[id].source))
    {
      assert Paired(st.rooms[id], Find(st, st.rooms[id].source));
    }
  }

  lemma EmptyInv()
    ensures Inv(EMPTY)
  {
    assert Pids([]) == {};
  }

  /** The state after a run from the empty matchmaker. */
  ghost function Run(run: seq<Action>): (st: State)
    requires AllLegal(run)
    ensures Inv(st) && TableKeyed(st)
  {
    if run == [] then
      EmptyInv();
      EMPTY
    else
      var st := Run(run[..|run|-1]);
      StepKeeps(st, run[|run|-1]);
      InvKeyed(Step(st, run[|run|-1]).state);
      Step(st, run[|run|-1]).state
  }

  // ---------- seats ----------

  /** In every reachable state a room's people, reserved seats included, fit its capacity,
      which respects the absolute limit and every seated search's own limit, and nobody who
      is seated is marked as failed. */
  lemma SeatSafety(run: seq<Action>, id: nat)
    requires AllLegal(run) && id in Run(run).rooms
    ensures var st := Run(run); var r := st.rooms[id];
      && Occupancy(st, r) <= r.capacity <= 8
      && (forall p :: p in r.players ==> r.capacity <= p.max)
      && (forall p, m :: p in r.players && m in p.members ==> !r.Failed(m))
  {
    OccupancyBound(Run(run), id);
    hide Run;
  }

  lemma OccupancyBound(st: State, id: nat)
    requires Inv(st) && id in st.rooms
    ensures Occupancy(st, st.rooms[id]) <= st.rooms[id].capacity <= 8
    ensures NoneFailed(st.rooms[id]) && forall p :: p in st.rooms[id].players ==> st.rooms[id].capacity <= p.max
  {
    var r := st.rooms[id];
    hide QueueOk, LeadersOnce, NoneFailed;
    assert RoomOk(r);
    TakenBound(r, r.players);
    ZeroIsNoRoom(st);
    if r.source != 0 {
      var s := Find(st, r.source);
      assert Paired(r, s);
      TakenBound(s, s.players);
    }
  }

  // ---------- merge links ----------

  /** In every reachable state a room that reserves seats for a source is no source itself,
      both sides name each other, the source reserves nothing (so occupancy recurses once at
      most), and a source serves one live destination only; a room still promised to a live
      destination is the one that destination reserves for. */
  lemma MergeLinks(run: seq<Action>, d: nat)
    requires AllLegal(run) && d in Run(run).rooms
    ensures var st := Run(run); var r := st.rooms[d];
      && (r.source != 0 ==>
            && r.target == 0 && r.source != d && (r.source in st.rooms || r.source in st.gone)
            && Find(st, r.source).target == d && Find(st, r.source).source == 0
            && forall o :: o in st.rooms && st.rooms[o].source == r.source ==> o == d)
      && (r.target in st.rooms ==> st.rooms[r.target].source == d)
  {
    var st := Run(run);
    hide Run, LeadersOnce, QueueOk, RoomsOk, NoneFailed;
    var r := st.rooms[d];
    if r.source != 0 {
      assert Paired(r, Find(st, r.source));
      forall o | o in st.rooms && st.rooms[o].source == r.source ensures o == d {
        assert Paired(st.rooms[o], Find(st, r.source));
      }
    }
  }

  // ---------- leaders, hosts, filters ----------

  /** In every reachable state no account leads two searches anywhere, each host sits in its
      room, and a room's searches share its filter. */
  lemma OneSearchPerAccount(run: seq<Action>, id: nat)
    requires AllLegal(run) && id in Run(run).rooms
    ensures var st := Run(run); var r := st.rooms[id];
      && r.host in r.players && r.host.conn.pid in r.host.members
      && (forall p :: p in r.players ==> p.filter == r.host.filter)
      && Distinct(st.waiting) && Distinct(r.players) && Pids(st.waiting) !! Pids(r.players)
      && (forall o :: o in st.rooms && o != id ==> Pids(st.rooms[o].players) !! Pids(r.players))
  {
    var st := Run(run);
    hide Run, Distinct, Pids, Links, QueueOk, NoneFailed, Keyed;
    assert RoomOk(st.rooms[id]);
  }

  // ---------- versions ----------

  lemma StepProgress(st: State, a: Action)
    requires Inv(st) && Legal(a)
    ensures TableKeyed(st) && Progress(st, Step(st, a).state)
  {
    InvKeyed(st);
    match a
    case DrawId =>
    case Ask(s) => EnqueueProgress(st, s);
    case Withdraw(c, id) =>
    case Quit(c, id) => LeaveCalm(st, c, id); CalmStepProgress(st, Leave(st, c, id));
    case HostSync(c, id, version, doc) => SyncProgress(st, c, id, version, doc);
  }

  lemma CalmStepProgress(st: State, st': State)
    requires CalmStep(st, st')
    ensures Progress(st, st')
  {
  }

  lemma AdvancesTransitive(a: Room, b: Room, c: Room)
    requires Advances(a, b) && Advances(b, c)
    ensures Advances(a, c)
  {
  }

  /** Over any continuation of a run: a room's version never falls, a room that has left the
      table never comes back under its id, and while the version stands still no connection
      starts waiting for a notice. */
  lemma {:induction false} RunAdvances(run: seq<Action>, j: nat, id: nat)
    requires AllLegal(run) && j <= |run|
    ensures id in Run(run).rooms && id <= Run(run[..j]).ids ==>
      id in Run(run[..j]).rooms && Advances(Run(run[..j]).rooms[id], Run(run).rooms[id])
    decreases |run|
  {
    hide Inv, Advances, Step, HoldsVersion;
    if id !in Run(run).rooms || id > Run(run[..j]).ids {
    } else if j == |run| {
      assert run[..j] == run;
      AdvancesRefl(Run(run).rooms[id]);
    } else {
      var run' := run[..|run|-1];
      assert run'[..j] == run[..j];
      StepProgress(Run(run'), run[|run|-1]);
      RunIdsGrow(run', j);
      assert id in Run(run').rooms;
      RunAdvances(run', j, id);
      AdvancesTransitive(Run(run[..j]).rooms[id], Run(run').rooms[id], Run(run).rooms[id]);
    }
  }

  lemma AdvancesRefl(r: Room)
    ensures Advances(r, r)
  {
  }

  lemma {:induction false} RunIdsGrow(run: seq<Action>, j: nat)
    requires AllLegal(run) && j <= |run|
    ensures Run(run[..j]).ids <= Run(run).ids
    decreases |run|
  {
    if j == |run| {
      assert run[..j] == run;
    } else {
      var run' := run[..|run|-1];
      assert run'[..j] == run[..j];
      StepProgress(Run(run'), run[|run|-1]);
      RunIdsGrow(run', j);
    }
  }

  /** While a reservation stands, the destination keeps the version it was reserved at. */
  lemma {:induction false} ReservationVersion(run: seq<Action>, j: nat, id: nat)
    requires AllLegal(run) && j <= |run|
    requires forall k :: j <= k <= |run| ==> id in Run(run[..k]).rooms
    requires forall k :: j <= k <= |run| ==> Run(run[..k]).rooms[id].source == Run(run[..j]).rooms[id].source != 0
    ensures id in Run(run).rooms && Run(run).rooms[id].version == Run(run[..j]).rooms[id].version
    decreases |run|
  {
    hide Inv, Advances, Step;
    assert run[..|run|] == run;
    if j < |run| {
      var run' := run[..|run|-1];
      assert forall k :: j <= k <= |run'| ==> run'[..k] == run[..k];
      assert run'[..|run'|] == run' == run[..|run|-1];
      StepProgress(Run(run'), run[|run|-1]);
      RunSnoc(run);
      ReservationVersion(run', j, id);
      hide Run;
    }
  }

  lemma RunSnoc(run: seq<Action>)
    requires AllLegal(run) && run != []
    ensures Run(run) == Step(Run(run[..|run|-1]), run[|run|-1]).state
  {
  }

  // ---------- who is told to join, and when ----------

  lemma {:induction false} UnreleasedOf(q: seq<Search>, told: set<Conn>)
    ensures Conns(Unreleased(q, told)) == Conns(q) - told
    ensures forall p :: p in Unreleased(q, told) ==> p in q
    ensures forall i, j :: 0 <= i < j < |Unreleased(q, told)| ==> Unreleased(q, told)[i].conn != Unreleased(q, told)[j].conn
    decreases |q|
  {
    if q != [] {
      var q0, p := q[..|q|-1], q[|q|-1];
      assert q == q0 + [p];
      assert Unreleased(q, told) == Unreleased(q0, told) + if p.conn in told || p.conn in Conns(q0) then [] else [p];
      hide Unreleased, Conns;
      UnreleasedOf(q0, told);
      ConnsConcat(q0, [p]);
      OneConn(p);
      var u := Unreleased(q0, told);
      if p.conn in told || p.conn in Conns(q0) { assert u + [] == u; } else {
        ConnsConcat(u, [p]);
        NewConn(u, p);
      }
    }
  }

  lemma OneConn(p: Search)
    ensures Conns([p]) == {p.conn}
  {
  }

  lemma NewConn(u: seq<Search>, p: Search)
    requires p.conn !in Conns(u)
    ensures forall i :: 0 <= i < |u| ==> u[i].conn != p.conn
  {
    forall i | 0 <= i < |u| ensures u[i].conn != p.conn { assert u[i].conn in Conns(u); }
  }

  /** The join notices among `out` go exactly to the connections in `cs`, each once, each
      carrying the search id seated for it in `q` and the room. */
  ghost predicate JoinsExactly(out: seq<Notice>, q: seq<Search>, cs: set<Conn>, room: nat) {
    && (forall n :: n in out && n.event == JOIN_LOBBY ==>
          n.conn in cs && exists p :: p in q && p.conn == n.conn && n.ids == [p.id, room])
    && (forall c :: c in cs ==> exists n :: n in out && n.event == JOIN_LOBBY && n.conn == c)
    && (forall i, j :: 0 <= i < j < |out| && out[i].event == JOIN_LOBBY && out[j].event == JOIN_LOBBY ==> out[i].conn != out[j].conn)
  }

  lemma ReleaseJoins(st: State, id: nat)
    requires id in st.rooms
    ensures JoinsExactly(Release(st, id).out, st.rooms[id].players, Pending(st.rooms[id]), st.rooms[id].id)
  {
    var r := st.rooms[id];
    UnreleasedOf(r.players, r.notified);
    var u, out := Unreleased(r.players, r.notified), Release(st, id).out;
    assert Conns(u) == Pending(r);
    forall c | c in Pending(r) ensures exists n :: n in out && n.event == JOIN_LOBBY && n.conn == c {
      var p :| p in u && p.conn == c;
      var i :| 0 <= i < |u| && u[i] == p;
      assert out[i].conn == c;
    }
    forall n | n in out ensures n.conn in Pending(r) && exists p :: p in r.players && p.conn == n.conn && n.ids == [p.id, r.id] {
      var i :| 0 <= i < |out| && out[i] == n;
      assert u[i] in r.players;
    }
  }

  lemma JoinsBetween(a: seq<Notice>, b: seq<Notice>, c: seq<Notice>, q: seq<Search>, cs: set<Conn>, room: nat)
    requires JoinsExactly(b, q, cs, room)
    requires forall n :: n in a + c ==> n.event != JOIN_LOBBY
    ensures JoinsExactly(a + b + c, q, cs, room)
  {
    var out := a + b + c;
    InThree(a, b, c);
    forall i | 0 <= i < |out| && out[i].event == JOIN_LOBBY ensures |a| <= i < |a| + |b| && out[i] == b[i - |a|] {
      OnlyMiddle(a, b, c, i);
    }
  }

  lemma InThree(a: seq<Notice>, b: seq<Notice>, c: seq<Notice>)
    ensures forall n :: n in a + b + c <==> n in a + c || n in b
  {
  }

  lemma OnlyMiddle(a: seq<Notice>, b: seq<Notice>, c: seq<Notice>, i: nat)
    requires i < |a + b + c|
    ensures (a + b + c)[i] in a + c || (|a| <= i < |a| + |b| && (a + b + c)[i] == b[i - |a|])
  {
    if i < |a| { assert (a + b + c)[i] == (a + c)[i]; }
    if i >= |a| + |b| { assert (a + b + c)[i] == (a + c)[i - |b|]; }
  }

  lemma QuietParts(st: State, id: nat)
    requires TableKeyed(st) && id in st.rooms
    ensures forall n :: n in FinishMerge(st, id).out ==> n.event != JOIN_LOBBY
    ensures forall n :: n in Backfill(st, id).out ==> n.event == UPDATE_LOBBY
    ensures forall n :: n in StartMerge(st, id).out ==> n.event == UPDATE_LOBBY
  {
    hide MergeStands, Expected, FillFrom, Candidates, MergeOpen;
  }

  lemma SettleJoins(st: State, id: nat, doc: HostDoc)
    requires Inv(st) && id in st.rooms && doc.HostDoc?
    ensures TableKeyed(st)
    ensures JoinsExactly(Settle(st, id, doc).out, Sorted(st, id, doc).players, Pending(Sorted(st, id, doc)), id)
  {
    SortedPending(st, id, doc);
    hide Inv, FinishMerge, Release, Backfill, Reject, JoinsExactly, Pending;
    var a := FinishMerge(Adopt(st, id, doc), id);
    QuietParts(Adopt(st, id, doc), id);
    var b := WithRoom(a.state, Reject(a.state.rooms[id]));
    assert b.rooms[id] == Sorted(st, id, doc);
    ReleaseJoins(b, id);
    ReleaseKeyed(b, id);
    var c := Release(b, id);
    QuietParts(c.state, id);
    JoinsBetween(a.out, c.out, Backfill(c.state, id).out, b.rooms[id].players, Pending(b.rooms[id]), id);
  }

  lemma ReleaseKeyed(st: State, id: nat)
    requires TableKeyed(st) && id in st.rooms
    ensures TableKeyed(Release(st, id).state) && id in Release(st, id).state.rooms
  {
  }

  lemma AcceptsAt(st: State, c: Conn, id: nat, version: nat, doc: HostDoc)
    requires Accepts(st, c, id, version, doc)
    ensures id in st.rooms && doc.HostDoc? && st.rooms[id].host.conn == c && st.rooms[id].version == version
  {
  }

  /** An accepted sync sends what it settles, or else what reserving sends. */
  lemma SyncOut(st: State, c: Conn, id: nat, version: nat, doc: HostDoc)
    requires TableKeyed(st) && Accepts(st, c, id, version, doc)
    ensures var o := Settle(st, id, doc);
      Sync(st, c, id, version, doc) == if o.out == [] then StartMerge(o.state, id) else o
  {
    hide Settle, StartMerge;
  }

  /** An accepted host sync tells exactly the guests who were still waiting for a notice and
      survive the rejection, each once; nobody else is told to join. */
  lemma SyncJoins(st: State, c: Conn, id: nat, version: nat, doc: HostDoc)
    requires Inv(st) && Accepts(st, c, id, version, doc)
    ensures TableKeyed(st)
    ensures JoinsExactly(Sync(st, c, id, version, doc).out, Sorted(st, id, doc).players, Pending(Sorted(st, id, doc)), id)
    ensures Pending(Sorted(st, id, doc)) <= Pending(st.rooms[id])
  {
    hide *;
    InvKeyed(st);
    AcceptsAt(st, c, id, version, doc);
    SyncOut(st, c, id, version, doc);
    SortedPending(st, id, doc);
    SettleJoins(st, id, doc);
    var o := Settle(st, id, doc);
    if o.out == [] {
      StartMergeQuiet(o.state, id);
      NoMoreJoins(StartMerge(o.state, id).out, Sorted(st, id, doc).players, Pending(Sorted(st, id, doc)), id);
    }
  }

  lemma StartMergeQuiet(st: State, id: nat)
    requires TableKeyed(st) && id in st.rooms
    ensures forall n :: n in StartMerge(st, id).out ==> n.event != JOIN_LOBBY
  {
    QuietParts(st, id);
    hide StartMerge;
  }

  lemma NoMoreJoins(out: seq<Notice>, q: seq<Search>, cs: set<Conn>, room: nat)
    requires JoinsExactly([], q, cs, room) && forall n :: n in out ==> n.event != JOIN_LOBBY
    ensures JoinsExactly(out, q, cs, room)
  {
    JoinsBetween(out, [], [], q, cs, room);
    assert out + [] + [] == out;
    hide JoinsExactly;
  }

  lemma OnlySyncJoins(st: State, a: Action, n: Notice)
    requires TableKeyed(st) && n in Step(st, a).out && n.event == JOIN_LOBBY
    ensures a.HostSync? && Accepts(st, a.conn, a.room, a.version, a.doc)
  {
    hide Evict, Scanned, Expected, Greedy, Leave;
  }

  /** A join notice is for a guest still waiting for one, sent at the room's current version. */
  lemma JoinsNow(st: State, a: Action, n: Notice)
    requires Inv(st) && TableKeyed(st)
    ensures n in Step(st, a).out && n.event == JOIN_LOBBY ==>
      a.HostSync? && a.room in st.rooms && a.version == st.rooms[a.room].version && n.conn in Pending(st.rooms[a.room])
  {
    if n in Step(st, a).out && n.event == JOIN_LOBBY {
      OnlySyncJoins(st, a, n);
      SyncJoins(st, a.conn, a.room, a.version, a.doc);
      hide Inv, Sync, Sorted, Pending;
    }
  }

  /** Whenever a guest is told to join, the sync that triggers it carries a version newer than
      every version the room ever had while that guest was not seated: the host's document
      was made after the guest got the seat. */
  lemma JoinNoticeIsFresh(run: seq<Action>, a: Action, n: Notice, j: nat)
    requires AllLegal(run) && Legal(a) && j <= |run|
    ensures n in Step(Run(run), a).out && n.event == JOIN_LOBBY ==>
      && a.HostSync? && a.room in Run(run).rooms && a.version == Run(run).rooms[a.room].version
      && n.conn in Pending(Run(run).rooms[a.room])
      && (a.room in Run(run[..j]).rooms && n.conn !in Conns(Run(run[..j]).rooms[a.room].players) ==>
            a.version > Run(run[..j]).rooms[a.room].version)
  {
    assert AllLegal(run[..j]);
    hide *;
    JoinsNow(Run(run), a, n);
    var st0 := Run(run[..j]);
    if n in Step(Run(run), a).out && n.event == JOIN_LOBBY && a.room in st0.rooms && n.conn !in Conns(st0.rooms[a.room].players) {
      InvKeyed(st0);
      KeyedId(st0, a.room);
      RunAdvances(run, j, a.room);
      SeatedSince(st0.rooms[a.room], Run(run).rooms[a.room], n.conn);
    }
  }

  lemma SeatedSince(r: Room, r': Room, c: Conn)
    requires Advances(r, r') && c !in Conns(r.players) && c in Pending(r')
    ensures r'.version > r.version
  {
  }

  lemma KeyedId(st: State, id: nat)
    requires Keyed(st) && id in st.rooms
    ensures id <= st.ids
  {
  }
}
