/** Who is never told to join again: over every run, a connection that waits for no notice gets
    none until it searches again. */
module MatchSilence {
  import opened MatchTypes
  import opened MatchSteps
  import opened MatchInvariant
  import opened MatchSync
  import opened MatchProgress
  import opened MatchRuns
  import opened MatchMerge

  /** The connection has no search in the queue, and where it is seated it is on the told list. */
  ghost predicate Silent(st: State, c: Conn) {
    c !in Conns(st.waiting) && forall id :: id in st.rooms ==> c !in Pending(st.rooms[id])
  }

  ghost predicate NeverAsks(run: seq<Action>, c: Conn) { forall a :: a in run && a.Ask? ==> a.s.conn != c }

  lemma CalmSilent(st: State, st': State, c: Conn)
    requires Silent(st, c) && CalmStep(st, st') && Conns(st'.waiting) <= Conns(st.waiting)
    ensures Silent(st', c)
  {
    hide Pending, Conns;
  }

  lemma FewerConns(q: seq<Search>, q': seq<Search>)
    requires forall p :: p in q' ==> p in q
    ensures Conns(q') <= Conns(q)
  {
  }

  lemma EvictWaits(st: State, pid: nat)
    ensures Conns(Evict(st, pid).waiting) <= Conns(st.waiting)
  {
    SelectThins(st.waiting, NotLedBy(pid));
    FewerConns(st.waiting, Evict(st, pid).waiting);
  }

  lemma LeaveWaits(st: State, c: Conn, id: nat)
    ensures Conns(Leave(st, c, id).waiting) <= Conns(st.waiting)
  {
    SelectThins(st.waiting, NotOfConn(c));
    FewerConns(st.waiting, Leave(st, c, id).waiting);
  }

  lemma CancelWaits(st: State, c: Conn, id: nat)
    ensures Conns(Cancel(st, c, id).waiting) <= Conns(st.waiting) && CalmStep(st, Cancel(st, c, id))
  {
    DropConns(st.waiting, IsRequest(c, id));
  }

  lemma SeatPending(r: Room, s: Search)
    ensures Pending(Bump(Seat(r, s))) <= Pending(r) + {s.conn}
  {
    ConnsConcat(r.players, [s]);
  }

  lemma NewPending(id: nat, g: Group)
    requires g.picked != []
    ensures Pending(NewRoom(id, g)) <= Conns(g.picked) && NewRoom(id, g).id == id
  {
  }

  /** What queueing a search does to the state: it waits, or its group opens a room. */
  lemma GatherIs(st: State, s: Search)
    ensures var q := st.waiting + [s]; var g := Greedy(q, s.filter);
      Gather(st, s).state ==
        if g.seats < g.minimum || g.picked == [] then st.(waiting := q)
        else State(Select(q, NotIn(g.picked)), st.rooms[st.ids + 1 := NewRoom(st.ids + 1, g)], st.gone, st.ids + 1)
  {
    hide Greedy, Select, Expected;
  }

  lemma NotQueued(q: seq<Search>, s: Search, c: Conn)
    requires c !in Conns(q) && s.conn != c
    ensures c !in Conns(q + [s])
  {
    ConnsConcat(q, [s]);
  }

  lemma OpenSilent(st: State, q: seq<Search>, r: Room, ids: nat, c: Conn)
    requires Silent(st, c) && c !in Conns(q) && c !in Pending(r)
    ensures Silent(State(q, st.rooms[r.id := r], st.gone, ids), c)
  {
    hide Conns, Pending;
  }

  lemma GatherSilent(st: State, s: Search, c: Conn)
    requires Silent(st, c) && s.conn != c
    ensures Silent(Gather(st, s).state, c)
  {
    assert c !in Conns(st.waiting);
    hide *;
    GatherIs(st, s);
    var q := st.waiting + [s];
    NotQueued(st.waiting, s, c);
    var g := Greedy(q, s.filter);
    if g.picked == [] { WaitSilent(st, q, c); } else {
      GreedyFrom(q, s.filter);
      FewerConns(q, g.picked);
      SelectThins(q, NotIn(g.picked));
      FewerConns(q, Select(q, NotIn(g.picked)));
      NewPending(st.ids + 1, g);
      OpenSilent(st, Select(q, NotIn(g.picked)), NewRoom(st.ids + 1, g), st.ids + 1, c);
      WaitSilent(st, q, c);
    }
  }

  lemma WaitSilent(st: State, q: seq<Search>, c: Conn)
    requires Silent(st, c) && c !in Conns(q)
    ensures Silent(st.(waiting := q), c)
  {
    hide Conns, Pending;
  }

  lemma {:induction false} GreedyFrom(q: seq<Search>, filter: string)
    ensures forall p :: p in Greedy(q, filter).picked ==> p in q
  {
    if q != [] { GreedyFrom(q[..|q|-1], filter); }
  }

  lemma PlaceSilent(st: State, sel: nat, s: Search, c: Conn)
    requires Silent(st, c) && s.conn != c
    ensures Silent(Place(st, sel, s).state, c)
  {
    if sel in st.rooms {
      SeatPending(st.rooms[sel], s);
      hide Pending, Conns, Seat;
    } else {
      GatherSilent(st, s, c);
    }
  }

  lemma EnqueueSilent(st: State, s: Search, c: Conn)
    requires Inv(st) && Silent(st, c) && s.conn != c
    ensures TableKeyed(st) && Silent(Enqueue(st, s).state, c)
  {
    InvKeyed(st);
    InvLeaders(st);
    hide Inv, Silent, LeadersOnce, CalmStep, Place, Conns, Evict, Scanned;
    var st1 := Evict(st, s.conn.pid);
    EvictCalm(st, s.conn.pid);
    EvictWaits(st, s.conn.pid);
    CalmSilent(st, st1, c);
    EvictKeyed(st, s.conn.pid);
    var sel := Leader(st1, Admitting(st1, s));
    ScannedCalm(st1, sel);
    ScannedWaits(st1, sel);
    CalmSilent(st1, Scanned(st1, sel), c);
    PlaceSilent(Scanned(st1, sel), sel, s, c);
  }

  lemma EvictKeyed(st: State, pid: nat)
    requires TableKeyed(st)
    ensures TableKeyed(Evict(st, pid))
  {
  }

  lemma ScannedWaits(st: State, sel: nat)
    ensures Scanned(st, sel).waiting == st.waiting
  {
  }

  lemma SettledPending(st: State, id: nat, doc: HostDoc, c: Conn)
    requires Inv(st) && id in st.rooms && doc.HostDoc? && Silent(st, c)
    ensures TableKeyed(st) && c !in Pending(Settle(st, id, doc).state.rooms[id]) && c !in Conns(Settle(st, id, doc).state.waiting)
  {
    SettleRoom(st, id, doc);
    var added := SettleAdded(st, id, doc);
    SettleWaits(st, id, doc);
    hide Inv, Settle, Sorted, FinishMerge;
    FewerConns(st.waiting, added);
    ConnsConcat(Sorted(st, id, doc).players, added);
  }

  lemma SettleWaits(st: State, id: nat, doc: HostDoc)
    requires TableKeyed(st) && id in st.rooms && doc.HostDoc?
    ensures forall p :: p in Settle(st, id, doc).state.waiting ==> p in st.waiting
    ensures Conns(Settle(st, id, doc).state.waiting) <= Conns(st.waiting)
  {
    assert FinishMerge(Adopt(st, id, doc), id).state.waiting == st.waiting by { hide MergeStands, Expected; }
    var a := FinishMerge(Adopt(st, id, doc), id).state;
    hide FinishMerge, Reject, Expected, FillFrom, Unreleased;
    var c := Release(WithRoom(a, Reject(a.rooms[id])), id).state;
    FillMembers(c.rooms[id], c.waiting);
    FewerConns(st.waiting, Settle(st, id, doc).state.waiting);
  }

  lemma SettleSilent(st: State, id: nat, doc: HostDoc, c: Conn)
    requires Inv(st) && id in st.rooms && doc.HostDoc? && Silent(st, c)
    ensures TableKeyed(st) && Silent(Settle(st, id, doc).state, c)
  {
    InvKeyed(st);
    SettledPending(st, id, doc, c);
    SettleOthers(st, id, doc);
    hide Inv, Settle;
  }

  lemma StartMergeSilent(st: State, id: nat, c: Conn)
    requires Keyed(st) && id in st.rooms && st.rooms[id].source == 0 && Silent(st, c)
    ensures TableKeyed(st) && Silent(StartMerge(st, id).state, c)
  {
    StartMergeOthers(st, id);
    assert StartMerge(st, id).state.waiting == st.waiting by { hide MergeOpen, Candidates, Expected, Leads, Leader; }
    hide StartMerge;
  }

  lemma SyncSilent(st: State, host: Conn, id: nat, version: nat, doc: HostDoc, c: Conn)
    requires Inv(st) && Silent(st, c)
    ensures TableKeyed(st) && Silent(Sync(st, host, id, version, doc).state, c)
  {
    InvKeyed(st);
    hide Inv, Settle, StartMerge, Silent, Keyed;
    if Accepts(st, host, id, version, doc) {
      SettleSilent(st, id, doc, c);
      if st.rooms[id].source != 0 {
        SyncResolves(st, host, id, version, doc);
      } else {
        SettleIdle(st, id, doc);
        SettleKeeps(st, id, doc);
        InvKeyed(Settle(st, id, doc).state);
        StartMergeSilent(Settle(st, id, doc).state, id, c);
      }
    }
  }

  /** No call but a search over the connection itself ends its silence. */
  lemma StepSilent(st: State, a: Action, c: Conn)
    requires Inv(st) && Legal(a) && Silent(st, c) && (a.Ask? ==> a.s.conn != c)
    ensures TableKeyed(st) && Silent(Step(st, a).state, c)
  {
    InvKeyed(st);
    hide Inv, Silent, CalmStep, Conns, Enqueue, Sync, Leave, Cancel;
    match a
    case DrawId => DrawSilent(st, c);
    case Ask(s) => EnqueueSilent(st, s, c);
    case Withdraw(who, id) => CancelWaits(st, who, id); CalmSilent(st, Cancel(st, who, id), c);
    case Quit(who, id) => LeaveCalm(st, who, id); LeaveWaits(st, who, id); CalmSilent(st, Leave(st, who, id), c);
    case HostSync(who, id, version, doc) => SyncSilent(st, who, id, version, doc, c);
  }

  lemma DrawSilent(st: State, c: Conn)
    requires Silent(st, c)
    ensures Silent(st.(ids := st.ids + 1), c)
  {
  }

  lemma {:induction false} RunSilent(run: seq<Action>, more: seq<Action>, c: Conn)
    requires AllLegal(run) && AllLegal(more) && Silent(Run(run), c) && NeverAsks(more, c)
    ensures AllLegal(run + more) && Silent(Run(run + more), c)
    decreases |more|
  {
    hide *;
    LegalConcat(run, more);
    if more == [] {
      assert run + more == run;
    } else {
      var before, a := more[..|more|-1], more[|more|-1];
      LastAction(more, c);
      RunSilent(run, before, c);
      LastOf(run, more);
      RunSnoc(run + more);
      StepSilent(Run(run + before), a, c);
    }
  }

  lemma LegalConcat(run: seq<Action>, more: seq<Action>)
    requires AllLegal(run) && AllLegal(more)
    ensures AllLegal(run + more)
  {
  }

  lemma LastAction(more: seq<Action>, c: Conn)
    requires more != [] && AllLegal(more) && NeverAsks(more, c)
    ensures var before, a := more[..|more|-1], more[|more|-1];
      AllLegal(before) && NeverAsks(before, c) && Legal(a) && (a.Ask? ==> a.s.conn != c)
  {
    assert more[|more|-1] in more;
  }

  lemma LastOf(run: seq<Action>, more: seq<Action>)
    requires more != []
    ensures (run + more)[..|run + more|-1] == run + more[..|more|-1]
    ensures (run + more)[|run + more|-1] == more[|more|-1]
  {
  }

  /** Once a connection waits for no notice, no call in any continuation tells it to join, until
      it searches again itself: wherever its search is moved, merged or kept, and even if it is
      seated in a room whose lobby it has left. */
  lemma SilentUntilItAsks(run: seq<Action>, more: seq<Action>, a: Action, n: Notice)
    requires AllLegal(run) && AllLegal(more) && Silent(Run(run), n.conn) && NeverAsks(more, n.conn)
    ensures AllLegal(run + more) && (n in Step(Run(run + more), a).out ==> n.event != JOIN_LOBBY)
  {
    hide *;
    RunSilent(run, more, n.conn);
    SilentNotPending(Run(run + more), n.conn);
    JoinsNow(Run(run + more), a, n);
  }

  lemma SilentNotPending(st: State, c: Conn)
    requires Silent(st, c)
    ensures forall id :: id in st.rooms ==> c !in Pending(st.rooms[id])
  {
  }
}
