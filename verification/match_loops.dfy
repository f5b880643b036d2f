/** What the loops over the table of rooms add up to: sweeps, the sorted scan, and the cases of
    finishMerge, backfill and startMerge, as facts about the step functions. */
module MatchLoops {
  import opened Common
  import opened MatchTypes
  import MatchRoom
  import Steps = MatchSteps
  import Spec = MatchInvariant
  import MatchSync

  // ---------- loops over the table, one room at a time ----------

  function DropRoom(st: State, id: nat): State
    requires id in st.rooms
  {
    st.(rooms := st.rooms - {id}, gone := st.gone[id := st.rooms[id]])
  }

  /** One room handled by a sweep: dropped or changed. */
  function SweepRoom(st: State, id: nat, drops: set<nat>, change: Room -> Room): State
    requires id in st.rooms
  {
    if id in drops then DropRoom(st, id) else st.(rooms := st.rooms[id := change(st.rooms[id])])
  }

  /** A sweep over the table carried out in the rooms of `done`. */
  function Swept(st: State, done: set<nat>, drops: set<nat>, change: Room -> Room): State {
    st.(rooms := map id | id in st.rooms && !(id in done && id in drops) :: if id in done then change(st.rooms[id]) else st.rooms[id],
        gone := st.gone + map id | id in st.rooms && id in done && id in drops :: st.rooms[id])
  }

  lemma SweepNone(st: State, drops: set<nat>, change: Room -> Room)
    ensures Swept(st, {}, drops, change) == st
  {
    assert Swept(st, {}, drops, change).gone == st.gone;
    assert Swept(st, {}, drops, change).rooms == st.rooms;
  }

  lemma SweepDrop(st: State, done: set<nat>, id: nat, drops: set<nat>, change: Room -> Room)
    requires id in st.rooms && id !in done && id in drops && id in Swept(st, done, drops, change).rooms
    ensures DropRoom(Swept(st, done, drops, change), id) == Swept(st, done + {id}, drops, change)
  {
    var a, b := DropRoom(Swept(st, done, drops, change), id), Swept(st, done + {id}, drops, change);
    assert a.rooms == b.rooms;
    assert a.gone == b.gone;
  }

  lemma SweepChange(st: State, done: set<nat>, id: nat, drops: set<nat>, change: Room -> Room)
    requires id in st.rooms && id !in done && id !in drops
    ensures var m := Swept(st, done, drops, change);
      m.(rooms := m.rooms[id := change(st.rooms[id])]) == Swept(st, done + {id}, drops, change)
  {
    var m, b := Swept(st, done, drops, change), Swept(st, done + {id}, drops, change);
    assert m.rooms[id := change(st.rooms[id])] == b.rooms;
    assert m.gone == b.gone;
  }

  lemma SweepMore(st: State, done: set<nat>, id: nat, drops: set<nat>, change: Room -> Room)
    requires id in st.rooms && id !in done
    ensures id in Swept(st, done, drops, change).rooms && Swept(st, done, drops, change).rooms[id] == st.rooms[id]
    ensures SweepRoom(Swept(st, done, drops, change), id, drops, change) == Swept(st, done + {id}, drops, change)
  {
    if id in drops { SweepDrop(st, done, id, drops, change); } else { SweepChange(st, done, id, drops, change); }
  }

  function HostedBy(st: State, pid: nat): set<nat> { set id | id in st.rooms && st.rooms[id].host.conn.pid == pid }
  function Evicting(pid: nat): Room -> Room { (r: Room) => Steps.EvictFrom(r, pid) }
  function DisbandedBy(st: State, c: Conn, id: nat): set<nat> { set k | k in st.rooms && Steps.Disbands(st.rooms[k], c, id) }
  function Leaving(c: Conn, id: nat): Room -> Room { (r: Room) => Steps.LeaveRoom(r, c, id) }

  lemma EvictIsSweep(st: State, pid: nat)
    ensures Steps.Evict(st, pid) ==
      Swept(st, st.rooms.Keys, HostedBy(st, pid), Evicting(pid)).(waiting := Select(st.waiting, NotLedBy(pid)))
  {
    EvictRooms(st, pid);
    EvictGone(st, pid);
    hide HostedBy, Evicting, Steps.EvictFrom, Select;
  }

  lemma EvictRooms(st: State, pid: nat)
    ensures Steps.Evict(st, pid).rooms == Swept(st, st.rooms.Keys, HostedBy(st, pid), Evicting(pid)).rooms
  {
    hide Steps.EvictFrom, Select;
  }

  lemma EvictGone(st: State, pid: nat)
    ensures Steps.Evict(st, pid).gone == Swept(st, st.rooms.Keys, HostedBy(st, pid), Evicting(pid)).gone
  {
    hide Steps.EvictFrom, Select;
  }

  lemma LeaveIsSweep(st: State, c: Conn, id: nat)
    ensures Steps.Leave(st, c, id) ==
      Swept(st, st.rooms.Keys, DisbandedBy(st, c, id), Leaving(c, id)).(waiting := Select(st.waiting, NotOfConn(c)))
  {
    LeaveRooms(st, c, id);
    LeaveGone(st, c, id);
    hide DisbandedBy, Leaving, Steps.LeaveRoom, Steps.Disbands, Select;
  }

  lemma LeaveRooms(st: State, c: Conn, id: nat)
    ensures Steps.Leave(st, c, id).rooms == Swept(st, st.rooms.Keys, DisbandedBy(st, c, id), Leaving(c, id)).rooms
  {
    hide Steps.LeaveRoom, Steps.Disbands, Select;
  }

  lemma LeaveGone(st: State, c: Conn, id: nat)
    ensures Steps.Leave(st, c, id).gone == Swept(st, st.rooms.Keys, DisbandedBy(st, c, id), Leaving(c, id)).gone
  {
    hide Steps.LeaveRoom, Steps.Disbands, Select;
  }

  // ---------- the sorted scan ----------

  ghost predicate Ahead(st: State, a: nat, b: nat) {
    a in st.rooms && b in st.rooms && Steps.Before(st, st.rooms[a], st.rooms[b])
  }

  ghost predicate InOrder(st: State, order: seq<nat>) {
    forall i, j :: 0 <= i < j < |order| ==> Ahead(st, order[i], order[j])
  }

  lemma InsertOrder(st: State, order: seq<nat>, i: nat, id: nat)
    requires InOrder(st, order) && i <= |order|
    requires forall k :: 0 <= k < i ==> Ahead(st, order[k], id)
    requires i < |order| ==> Ahead(st, id, order[i])
    ensures InOrder(st, order[..i] + [id] + order[i..])
  {
    forall k | i < k < |order| ensures Ahead(st, id, order[k]) {
      assert Ahead(st, order[i], order[k]);
    }
    hide Ahead;
  }

  lemma OrderEmpty(st: State)
    ensures InOrder(st, [])
  {
  }

  lemma InsertMembers<T>(q: seq<T>, i: nat, x: T)
    requires i <= |q|
    ensures forall y :: y in q[..i] + [x] + q[i..] <==> y in q || y == x
  {
    assert q == q[..i] + q[i..];
    forall y | y in q ensures y in q[..i] + [x] + q[i..] { assert y in q[..i] || y in q[i..]; }
  }

  function ForgetIn(st: State, id: nat): State
    requires id in st.rooms
  {
    if Steps.Stale(st, st.rooms[id]) then st.(rooms := st.rooms[id := st.rooms[id].(target := 0)]) else st
  }

  /** Stale targets forgotten in the rooms listed. */
  function ScannedRooms(st: State, done: seq<nat>): State {
    st.(rooms := map id | id in st.rooms ::
      if id in done && Steps.Stale(st, st.rooms[id]) then st.rooms[id].(target := 0) else st.rooms[id])
  }

  lemma ScanNone(st: State)
    ensures ScannedRooms(st, []) == st
  {
    assert ScannedRooms(st, []).rooms == st.rooms;
  }

  lemma ScanMore(st: State, done: seq<nat>, id: nat)
    requires id in st.rooms
    ensures id in ScannedRooms(st, done).rooms
    ensures ForgetIn(ScannedRooms(st, done), id) == ScannedRooms(st, done + [id])
  {
    assert ForgetIn(ScannedRooms(st, done), id).rooms == ScannedRooms(st, done + [id]).rooms;
  }

  /** Forgetting stale targets decides no admission but the room's own. */
  lemma ScanDecides(st: State, done: seq<nat>, id: nat, s: Search)
    requires id in st.rooms && id in done
    ensures var m := ScannedRooms(st, done);
      Steps.Admits(st, st.rooms[id], s) <==> m.rooms[id].target == 0 && Steps.Vacant(m, m.rooms[id], s)
  {
    Spec.TargetIrrelevant(st.rooms[id], 0, st.rooms[id].players);
    var src := st.rooms[id].source;
    if src in st.rooms { Spec.TargetIrrelevant(st.rooms[src], 0, st.rooms[src].players); }
  }

  lemma LeadsOnce(st: State, ids: set<nat>, a: nat, b: nat)
    requires Steps.TableKeyed(st) && ids <= st.rooms.Keys && Steps.Leads(st, ids, a) && Steps.Leads(st, ids, b)
    ensures a == b
  {
  }

  lemma ScanEnds(st: State, order: seq<nat>, i: nat, s: Search)
    requires Steps.TableKeyed(st) && InOrder(st, order) && (forall id :: id in order <==> id in st.rooms) && i < |order|
    requires Steps.Admits(st, st.rooms[order[i]], s)
    requires forall k :: 0 <= k < i ==> !Steps.Admits(st, st.rooms[order[k]], s)
    ensures order[i] == Steps.Leader(st, Steps.Admitting(st, s))
    ensures ScannedRooms(st, order[..i+1]) == Steps.Scanned(st, order[i])
  {
    var sel := order[i];
    var ids := Steps.Admitting(st, s);
    hide Steps.Occupancy, Steps.Admits;
    forall o | o in ids && o != sel ensures Ahead(st, sel, o) {
      var k :| 0 <= k < |order| && order[k] == o;
      assert k > i;
    }
    assert Steps.Leads(st, ids, sel);
    LeadsOnce(st, ids, sel, Steps.Leader(st, ids));
    forall id | id in st.rooms ensures id in order[..i+1] <==> !Steps.Before(st, st.rooms[sel], st.rooms[id]) {
      var k :| 0 <= k < |order| && order[k] == id;
      if k <= i {
        assert order[..i+1][k] == id;
        if k < i { assert Ahead(st, id, sel); BeforeOnce(st, st.rooms[id], st.rooms[sel]); } else { BeforeOnce(st, st.rooms[id], st.rooms[id]); }
      } else {
        assert Ahead(st, sel, id);
        BeforeOnce(st, st.rooms[sel], st.rooms[id]);
      }
    }
    hide Steps.Before;
    assert ScannedRooms(st, order[..i+1]).rooms == Steps.Scanned(st, sel).rooms;
  }

  lemma BeforeOnce(st: State, a: Room, b: Room)
    ensures !(Steps.Before(st, a, b) && Steps.Before(st, b, a))
  {
  }

  lemma ScanFails(st: State, order: seq<nat>, s: Search)
    requires Steps.TableKeyed(st) && (forall id :: id in order <==> id in st.rooms) && 0 !in st.rooms
    requires forall k :: 0 <= k < |order| ==> !Steps.Admits(st, st.rooms[order[k]], s)
    ensures Steps.Leader(st, Steps.Admitting(st, s)) == 0
    ensures ScannedRooms(st, order[..|order|]) == Steps.Scanned(st, 0)
  {
    hide Steps.Occupancy, Steps.Admits, Steps.Before;
    forall id | id in st.rooms ensures !Steps.Admits(st, st.rooms[id], s) {
      var k :| 0 <= k < |order| && order[k] == id;
    }
    assert Steps.Admitting(st, s) == {};
    assert order[..|order|] == order;
    assert ScannedRooms(st, order).rooms == Steps.Scanned(st, 0).rooms;
  }

  // ---------- enqueue and leave ----------

  /** A group big enough is not empty. */
  lemma GroupNeeded(q: seq<Search>, filter: string)
    requires Spec.QueueOk(q)
    ensures Steps.Greedy(q, filter).seats >= Steps.Greedy(q, filter).minimum ==> Steps.Greedy(q, filter).picked != []
  {
    Spec.GreedyOk(q, filter);
    assert SeatSum([]) == 0;
  }

  lemma SweptQueue(st: State, drops: set<nat>, change: Room -> Room, q: seq<Search>)
    ensures Swept(st.(waiting := q), st.rooms.Keys, drops, change) == Swept(st, st.rooms.Keys, drops, change).(waiting := q)
  {
    assert Swept(st.(waiting := q), st.rooms.Keys, drops, change).rooms == Swept(st, st.rooms.Keys, drops, change).rooms;
  }

  lemma HostedSame(st: State, pid: nat, q: seq<Search>)
    ensures HostedBy(st.(waiting := q), pid) == HostedBy(st, pid)
  {
  }

  lemma DisbandedSame(st: State, c: Conn, id: nat, q: seq<Search>)
    ensures DisbandedBy(st.(waiting := q), c, id) == DisbandedBy(st, c, id)
  {
  }

  // ---------- finishing and starting a merge ----------

  lemma CancelIs(st: State, id: nat, src: nat)
    requires id in st.rooms && st.rooms[id].source == src != id && st.rooms[id].id == id && (src in st.rooms || src in st.gone)
    ensures var m := Steps.WithRoom(st, st.rooms[id].(source := 0, version := st.rooms[id].version + 1));
      Steps.CancelMerge(st, id) == if src in m.rooms then m.(rooms := m.rooms[src := m.rooms[src].(target := 0)])
        else m.(gone := m.gone[src := m.gone[src].(target := 0)])
  {
    var m := Steps.WithRoom(st, st.rooms[id].(source := 0, version := st.rooms[id].version + 1));
    if src in m.rooms {
      assert Steps.CancelMerge(st, id).rooms == m.rooms[src := m.rooms[src].(target := 0)];
      assert Steps.CancelMerge(st, id).gone == st.gone;
    } else {
      assert Steps.CancelMerge(st, id).rooms == m.rooms;
      assert Steps.CancelMerge(st, id).gone == m.gone[src := m.gone[src].(target := 0)];
    }
  }

  lemma CommitIs(st: State, id: nat)
    requires id in st.rooms && st.rooms[id].id == id && st.rooms[id].source in st.rooms && st.rooms[id].source != id
    ensures var src := st.rooms[id].source; var m := Steps.WithRoom(st, Steps.Absorbed(st.rooms[id], st.rooms[src]));
      src in m.rooms && DropRoom(m, src) == Steps.CommitMerge(st, id)
  {
    var src := st.rooms[id].source;
    var m := Steps.WithRoom(st, Steps.Absorbed(st.rooms[id], st.rooms[src]));
    assert DropRoom(m, src).rooms == Steps.CommitMerge(st, id).rooms;
    assert DropRoom(m, src).gone == Steps.CommitMerge(st, id).gone;
  }

  /** finishMerge case by case. */
  lemma FinishCases(st: State, id: nat)
    requires Steps.TableKeyed(st) && MatchSync.Almost(st, id)
    ensures st.rooms[id].source == 0 ==> Steps.FinishMerge(st, id) == Steps.Outcome(st, [])
    ensures var src := st.rooms[id].source; var f := Steps.FinishMerge(st, id);
      src != 0 ==> if src in st.rooms && Steps.MergeStands(st, st.rooms[id], st.rooms[src]) then
        && f.state == Steps.CommitMerge(st, id) && id in f.state.rooms
        && f.out == Steps.MergeNotices(st.rooms[src].players, src, id, Steps.Expected(f.state, f.state.rooms[id]))
      else
        && f.state == Steps.CancelMerge(st, id) && id in f.state.rooms
        && f.out == [Steps.UpdateNotice(f.state, f.state.rooms[id])]
  {
    Spec.RoomsOkOf(st);
    MatchSync.ZeroIsNoRoom(st);
    if st.rooms[id].source != 0 { SourceKnown(st, id); }
    hide MatchSync.Almost, Steps.MergeStands, Steps.Expected;
  }

  lemma SourceKnown(st: State, id: nat)
    requires Steps.TableKeyed(st) && MatchSync.Almost(st, id) && st.rooms[id].source != 0
    ensures var src := st.rooms[id].source; src != id && (src in st.rooms || src in st.gone)
    ensures st.rooms[id].source in st.rooms ==> st.rooms[st.rooms[id].source].id == st.rooms[id].source
  {
    assert Spec.Paired(st.rooms[id], Steps.Find(st, st.rooms[id].source));
  }

  lemma ReservedSame(d: Room, s: Room, t: nat)
    ensures Steps.Reserved(d, s.(target := t)) == Steps.Reserved(d, s)
  {
  }

  lemma ForgetIs(st: State, id: nat)
    requires id in st.rooms && st.rooms[id].id == id
    ensures ForgetIn(st, id) == Steps.Forget(st, id)
  {
  }

  /** The first of the sorted candidates is the one startMerge takes. */
  lemma BestOf(st: State, id: nat, order: seq<nat>)
    requires Steps.TableKeyed(st) && id in st.rooms && InOrder(st, order) && 0 !in st.rooms
    requires forall k :: k in order <==> k in Steps.Candidates(st, st.rooms[id])
    ensures |order| == 0 ==> Steps.Leader(st, Steps.Candidates(st, st.rooms[id])) == 0
    ensures |order| != 0 ==> order[0] == Steps.Leader(st, Steps.Candidates(st, st.rooms[id])) != id && order[0] in st.rooms
  {
    var ids := Steps.Candidates(st, st.rooms[id]);
    hide Steps.Occupancy, Steps.MergeOpen;
    if |order| == 0 {
      assert ids == {};
    } else {
      assert order[0] in ids;
      forall o | o in ids && o != order[0] ensures Ahead(st, order[0], o) {
        var k :| 0 <= k < |order| && order[k] == o;
      }
      assert Steps.Leads(st, ids, order[0]);
      LeadsOnce(st, ids, order[0], Steps.Leader(st, ids));
    }
  }

  /** Backfill case by case. */
  lemma BackfillCases(st: State, id: nat)
    requires id in st.rooms && st.rooms[id].id == id
    ensures var r := st.rooms[id]; var f := Steps.FillFrom(r, st.waiting); var b := Steps.Backfill(st, id);
      if !r.open || r.target != 0 || r.source != 0 then b == Steps.Outcome(st, [])
      else
        && id in b.state.rooms
        && b.state == Steps.WithRoom(st, if |f.added| > 0 then Steps.Bump(f.room) else f.room).(waiting := f.rest)
        && b.out == if |f.added| > 0 then [Steps.UpdateNotice(b.state, b.state.rooms[id])] else []
  {
    var r := st.rooms[id];
    var f := Steps.FillFrom(r, st.waiting);
    Steps.FillKeepsId(r, st.waiting);
    if f.added == [] {
      MatchSync.FillNoneSame(r, st.waiting);
      assert st.rooms[id := r] == st.rooms;
    }
    hide Steps.FillFrom, Steps.UpdateNotice;
  }

  /** What enqueue does when no room takes the search. */
  lemma GatherCases(st: State, s: Search)
    requires Steps.ValidSearch(s) && Spec.QueueOk(st.waiting)
    ensures var w := st.waiting + [s]; var g := Steps.Greedy(w, s.filter);
      && (g.seats >= g.minimum ==> g.picked != [])
      && Steps.Gather(st, s) ==
        if g.seats < g.minimum then Steps.Outcome(st.(waiting := w), []) else Steps.Launched(st.(waiting := w), g)
  {
    hide Steps.ValidSearch, Steps.Greedy, Steps.Launched;
    GroupNeeded(st.waiting + [s], s.filter);
  }

  lemma CancelIsDrop(st: State, c: Conn, id: nat)
    ensures Steps.Cancel(st, c, id) == st.(waiting := DropFirst(st.waiting, IsRequest(c, id)))
  {
    hide DropFirst;
  }

  lemma DropAt(q: seq<Search>, hit: Search -> bool, i: nat)
    requires i <= |q| && (i < |q| ==> hit(q[i])) && forall k :: 0 <= k < i ==> !hit(q[k])
    ensures DropFirst(q, hit) == if i < |q| then q[..i] + q[i+1..] else q
  {
    MatchRoom.FirstIs(q, hit, i);
  }

  lemma OpenWhen(st: State, r: Room)
    ensures Steps.MergeOpen(st, r) <==> r.open && JoinedIn(r, r.players) == Steps.Occupancy(st, r) && Steps.Occupancy(st, r) > 0
  {
    hide Steps.Occupancy, JoinedIn;
  }

  lemma AbsorbsWhen(st: State, d: Room, s: Room)
    ensures Steps.CanAbsorb(st, d, s) <==>
      var (ours, theirs) := (Steps.Occupancy(st, d), Steps.Occupancy(st, s));
      && s.id != d.id && s.target == 0 && s.source == 0 && Steps.MergeOpen(st, s) && s.host.filter == d.host.filter
      && (ours > theirs || (ours == theirs && d.id < s.id))
      && theirs + ours <= Min(s.capacity, d.capacity) && Steps.DisjointParties(s.players, d.players)
  {
    hide Steps.Occupancy, Steps.MergeOpen, Steps.DisjointParties;
  }

  lemma StandsWhen(st: State, d: Room, s: Room, lost: bool)
    requires s.id in st.rooms && (lost <==> exists p, m :: p in s.players && m in p.members && d.Status(m) == TIMED_OUT)
    ensures Steps.MergeStands(st, d, s) <==>
      s.target == d.id && d.open && Steps.MergeOpen(st, s) && Steps.DisjointParties(d.players, s.players) && !lost
  {
    hide Steps.MergeOpen, Steps.DisjointParties;
  }

  lemma ReleaseIs(st: State, id: nat)
    requires id in st.rooms
    ensures var r := st.rooms[id];
      Steps.Release(st, id) == Steps.Outcome(Steps.WithRoom(st, r.(notified := r.notified + Conns(r.players))),
        Steps.JoinNotices(Steps.Unreleased(r.players, r.notified), r.id, Steps.Expected(st, r)))
  {
    hide Steps.Unreleased, Steps.Expected, Steps.WithRoom, Steps.JoinNotices;
  }

  lemma PlaceQueues(st: State, s: Search)
    requires 0 !in st.rooms
    ensures Steps.Place(st, 0, s) == Steps.Gather(st, s)
  {
  }

  lemma {:induction false} SelectFront<T>(q: seq<T>, keep: T -> bool)
    requires q != []
    ensures Select(q, keep) == (if keep(q[0]) then [q[0]] else []) + Select(q[1..], keep)
  {
    if |q| == 1 {
      assert q[..0] == [] && q[1..] == [];
    } else {
      var a := q[..|q|-1];
      SelectFront(a, keep);
      assert a[1..] == q[1..][..|q[1..]|-1];
    }
  }
}
