/** The matchmaker as the server runs it: one object holding the queue and the table of rooms,
    rooms as objects that point at each other. Every method is proved to do exactly what its
    step function in MatchSteps says. */
module Matchmaker {
  import opened Common
  import opened MatchTypes
  import opened MatchRoom
  import opened MatchLoops
  import Steps = MatchSteps
  import Spec = MatchInvariant
  import MatchSync

  /** ctr_merge.go's disjointRooms: the parties share no account. */
  method Disjoint(a: seq<Search>, b: seq<Search>) returns (yes: bool)
    ensures yes <==> Steps.DisjointParties(a, b)
  {
    var seen: set<nat> := {};
    for i := 0 to |a|
      invariant seen == Steps.AllMembers(a[..i])
    {
      assert a[..i+1] == a[..i] + [a[i]];
      ghost var before := seen;
      var ms := a[i].members;
      for j := 0 to |ms|
        invariant seen == before + set m | m in ms[..j]
      {
        assert ms[..j+1] == ms[..j] + [ms[j]];
        seen := seen + {ms[j]};
      }
      assert ms[..|ms|] == ms;
    }
    assert a[..|a|] == a;
    yes := true;
    for i := 0 to |b|
      invariant yes <==> forall q, m :: q in b[..i] && m in q.members ==> m !in seen
    {
      assert b[..i+1] == b[..i] + [b[i]];
      ghost var before := yes;
      var ms := b[i].members;
      for j := 0 to |ms|
        invariant yes <==> before && forall m :: m in ms[..j] ==> m !in seen
      {
        assert ms[..j+1] == ms[..j] + [ms[j]];
        if ms[j] in seen { yes := false; }
      }
      assert ms[..|ms|] == ms;
    }
    assert b[..|b|] == b;
    if yes {
      forall p, q, m | p in a && q in b && m in p.members ensures m !in q.members { assert m in seen; }
    } else {
      var q, m :| q in b && m in q.members && m in seen;
      var p :| p in a && m in p.members;
    }
  }

  method MergeEvents(q: seq<Search>, from: nat, into: nat, expected: set<nat>) returns (out: seq<Notice>)
    ensures out == Steps.MergeNotices(q, from, into, expected)
  {
    out := [];
    for i := 0 to |q|
      invariant |out| == i
      invariant forall k :: 0 <= k < i ==> out[k] == Notice(q[k].conn, MERGE_LOBBY, [q[k].id, from, into], expected)
    {
      out := out + [Notice(q[i].conn, MERGE_LOBBY, [q[i].id, from, into], expected)];
    }
  }

  class Matchmaker {
    var waiting: seq<Search>
    var rooms: map<nat, CtrRoom>
    var ids: nat
    /** Rooms that left the table; pending merges may still point at them. */
    ghost var gone: map<nat, CtrRoom>

    ghost function Objects(): set<CtrRoom>
      reads this
    {
      rooms.Values + gone.Values
    }

    /** The tables are keyed by room id and hold every room a live room points at. */
    ghost predicate Shape()
      reads this, Objects()
    {
      && (forall id :: id in rooms ==> rooms[id].id == id)
      && (forall id :: id in gone ==> gone[id].id == id)
      && rooms.Keys !! gone.Keys && 0 !in rooms && 0 !in gone
      && (forall id :: id in rooms && rooms[id].mergeSource != null ==> Knows(rooms[id].mergeSource))
      && (forall id :: id in gone && gone[id].mergeSource != null ==> gone[id].mergeSource.id != 0)
    }

    ghost predicate Knows(r: CtrRoom)
      reads this
    {
      (r.id in rooms && rooms[r.id] == r) || (r.id in gone && gone[r.id] == r)
    }

    ghost function Abs(): State
      reads this, Objects()
    {
      State(waiting, map id | id in rooms :: rooms[id].Value(), map id | id in gone :: gone[id].Value(), ids)
    }

    ghost predicate Valid()
      reads this, Objects()
    {
      Shape() && Spec.Inv(Abs())
    }

    /** A reserved source reserves nothing itself. */
    ghost predicate Flat()
      reads this, Objects()
      requires Shape()
    {
      forall id :: id in rooms && rooms[id].mergeSource != null ==> rooms[id].mergeSource.mergeSource == null
    }

    constructor ()
      ensures Valid() && Abs() == State([], map[], map[], 0)
    {
      waiting, rooms, ids, gone := [], map[], 0, map[];
      new;
      assert Pids([]) == {};
    }

    /** No object is held that was not held before, except new ones. */
    twostate predicate Grown()
      reads this
    {
      forall o :: o in Objects() ==> o in old(Objects()) || fresh(o)
    }

    lemma AbsKeys()
      ensures Abs().rooms.Keys == rooms.Keys && Abs().gone.Keys == gone.Keys
    {
    }

    lemma AbsAt(id: nat)
      requires id in rooms
      ensures id in Abs().rooms && Abs().rooms[id] == rooms[id].Value()
    {
    }

    /** A live room, object and value. */
    lemma RoomAt(id: nat, st: State)
      requires Shape() && id in rooms && st == Abs()
      ensures id in st.rooms && rooms[id].id == id && rooms[id].Value() == st.rooms[id] && rooms[id] in Objects()
      ensures var r, o := st.rooms[id], rooms[id];
        && r.id == id && r.version == o.version && r.host == o.host && r.players == o.players && r.open == o.open
        && r.capacity == o.capacity && r.notified == o.notified && r.target == o.mergeTarget
        && (r.source == 0 <==> o.mergeSource == null) && (o.mergeSource != null ==> Knows(o.mergeSource) && r.source == o.mergeSource.id)
    {
    }

    lemma CoreIsFlat()
      requires Shape() && Spec.Core(Abs())
      ensures Flat() && Steps.TableKeyed(Abs())
    {
      var st := Abs();
      forall id | id in rooms && rooms[id].mergeSource != null ensures rooms[id].mergeSource.mergeSource == null {
        var s := rooms[id].mergeSource;
        assert st.rooms[id].source == s.id != 0;
        assert Steps.Find(st, s.id) == s.Value();
        assert Spec.Paired(st.rooms[id], Steps.Find(st, s.id));
      }
    }

    lemma OccupancyIs(r: CtrRoom)
      requires Shape() && (r.mergeSource != null ==> Knows(r.mergeSource))
      ensures Steps.Occupancy(Abs(), r.Value()) ==
        Steps.OwnSeats(r.Value()) + if r.mergeSource == null then 0 else Steps.OwnSeats(r.mergeSource.Value())
    {
    }

    // ---------- evict ----------

    /** The backward loop that enqueue and leave take searches out of the queue with. */
    method Unqueue(keep: Search -> bool)
      requires Shape()
      modifies this`waiting
      ensures Shape() && Objects() == old(Objects()) && rooms == old(rooms)
      ensures Abs() == old(Abs()).(waiting := Select(old(waiting), keep))
    {
      hide Shape, Abs, Select;
      ghost var was := waiting;
      var i := |waiting|;
      UnqueueStart(was, keep);
      while i > 0
        invariant 0 <= i <= |was|
        invariant waiting == was[..i] + Select(was[i..], keep)
      {
        i := i - 1;
        UnqueueStep(was, i, keep);
        if !keep(waiting[i]) {
          waiting := waiting[..i] + waiting[i+1..];
        }
      }
      assert was[0..] == was && was[..0] + Select(was, keep) == Select(was, keep);
      QueueChanged();
    }

    lemma UnqueueStart(was: seq<Search>, keep: Search -> bool)
      ensures was == was[..|was|] + Select(was[|was|..], keep)
    {
    }

    lemma UnqueueStep(was: seq<Search>, i: nat, keep: Search -> bool)
      requires i < |was|
      ensures var now := was[..i+1] + Select(was[i+1..], keep);
        && now[i] == was[i]
        && (if keep(was[i]) then now else now[..i] + now[i+1..]) == was[..i] + Select(was[i..], keep)
    {
      SelectFront(was[i..], keep);
      assert was[i..][1..] == was[i+1..] && was[..i+1] == was[..i] + [was[i]];
    }

    /** Only the queue changed. */
    twostate lemma QueueChanged()
      requires old(Shape()) && rooms == old(rooms) && gone == old(gone) && ids == old(ids)
      requires forall o :: o in old(Objects()) ==> unchanged(o)
      ensures Shape() && Objects() == old(Objects()) && Abs() == old(Abs()).(waiting := waiting)
    {
      AllStoodStill();
      hide CtrRoom.Value;
      assert Abs().rooms == old(Abs()).rooms;
      assert Abs().gone == old(Abs()).gone;
    }

    /** One live room changed and everything else stood still. */
    twostate lemma RoomChanged(r: CtrRoom)
      requires old(Shape()) && r.id in old(rooms) && old(rooms)[r.id] == r
      requires waiting == old(waiting) && rooms == old(rooms) && gone == old(gone) && ids == old(ids)
      requires forall o :: o in old(Objects()) && o != r ==> unchanged(o)
      requires r.mergeSource != null ==> Knows(r.mergeSource)
      ensures Shape() && Objects() == old(Objects())
      ensures Abs() == Steps.WithRoom(old(Abs()), r.Value())
    {
      hide Steps.WithRoom;
      QueueAndRoomChanged(r);
      hide Abs, Shape, Objects, CtrRoom.Value;
      SameQueue(old(Abs()), r.Value(), waiting);
    }

    lemma SameQueue(st: State, r: Room, q: seq<Search>)
      requires st.waiting == q
      ensures Steps.WithRoom(st, r).(waiting := q) == Steps.WithRoom(st, r)
    {
    }

    twostate lemma Dropped(id: nat)
      requires old(Shape()) && id in old(rooms)
      requires waiting == old(waiting) && ids == old(ids)
      requires rooms == old(rooms) - {id} && gone == old(gone)[id := old(rooms)[id]]
      requires forall o :: o in old(Objects()) ==> unchanged(o)
      ensures Objects() == old(Objects()) && Shape()
    {
      forall k | k in old(rooms) ensures old(rooms)[k].mergeSource == old(rooms[k].mergeSource) {
        assert old(rooms)[k] in old(Objects());
      }
      forall k | k in old(gone) ensures old(gone)[k].mergeSource == old(gone[k].mergeSource) {
        assert old(gone)[k] in old(Objects());
      }
      forall o | o in old(Objects()) ensures o in Objects() {
        if o in old(rooms).Values {
          var k :| k in old(rooms) && old(rooms)[k] == o;
          assert if k == id then gone[id] == o else k in rooms && rooms[k] == o;
        } else {
          var k :| k in old(gone) && old(gone)[k] == o;
          assert k in gone && gone[k] == o;
        }
      }
      forall o | o in Objects() ensures o in old(Objects()) {
        if o in rooms.Values { var k :| k in rooms && rooms[k] == o; assert old(rooms)[k] == o; }
        else { var k :| k in gone && gone[k] == o; assert if k == id then old(rooms)[id] == o else old(gone)[k] == o; }
      }
    }

    /** Rooms that stood still read the same. */
    twostate lemma StoodStill(o: CtrRoom)
      requires unchanged(o)
      ensures o.Value() == old(o.Value()) && o.mergeSource == old(o.mergeSource)
    {
    }

    /** Every room but `r` stood still. */
    twostate lemma OthersStoodStill(r: CtrRoom?)
      requires forall o :: o in old(Objects()) && o != r ==> unchanged(o)
      ensures forall k :: k in old(rooms) && old(rooms)[k] != r ==>
        old(rooms)[k].Value() == old(rooms[k].Value()) && old(rooms)[k].mergeSource == old(rooms[k].mergeSource)
      ensures forall k :: k in old(gone) && old(gone)[k] != r ==>
        old(gone)[k].Value() == old(gone[k].Value()) && old(gone)[k].mergeSource == old(gone[k].mergeSource)
    {
      hide CtrRoom.Value;
      forall k | k in old(rooms) && old(rooms)[k] != r
        ensures old(rooms)[k].Value() == old(rooms[k].Value()) && old(rooms)[k].mergeSource == old(rooms[k].mergeSource)
      {
        assert old(rooms)[k] in old(Objects());
        StoodStill(old(rooms)[k]);
      }
      forall k | k in old(gone) && old(gone)[k] != r
        ensures old(gone)[k].Value() == old(gone[k].Value()) && old(gone)[k].mergeSource == old(gone[k].mergeSource)
      {
        assert old(gone)[k] in old(Objects());
        StoodStill(old(gone)[k]);
      }
    }

    twostate lemma AllStoodStill()
      requires forall o :: o in old(Objects()) ==> unchanged(o)
      ensures forall k :: k in old(rooms) ==> old(rooms)[k].Value() == old(rooms[k].Value()) && old(rooms)[k].mergeSource == old(rooms[k].mergeSource)
      ensures forall k :: k in old(gone) ==> old(gone)[k].Value() == old(gone[k].Value()) && old(gone)[k].mergeSource == old(gone[k].mergeSource)
    {
      OthersStoodStill(null);
      hide CtrRoom.Value;
    }

    twostate lemma DroppedAbs(id: nat)
      requires old(Shape()) && id in old(rooms)
      requires waiting == old(waiting) && ids == old(ids)
      requires rooms == old(rooms) - {id} && gone == old(gone)[id := old(rooms)[id]]
      requires forall o :: o in old(Objects()) ==> unchanged(o)
      ensures Abs() == DropRoom(old(Abs()), id)
    {
      hide CtrRoom.Value, Shape, Objects;
      DroppedRooms(id);
      DroppedGone(id);
      assert id in old(Abs()).rooms && Abs().waiting == old(Abs()).waiting && Abs().ids == old(Abs()).ids;
      hide Abs;
    }

    twostate lemma DroppedRooms(id: nat)
      requires id in old(rooms) && rooms == old(rooms) - {id}
      requires forall o :: o in old(Objects()) ==> unchanged(o)
      ensures Abs().rooms == old(Abs()).rooms - {id}
    {
      AllStoodStill();
      hide CtrRoom.Value, Objects;
    }

    twostate lemma DroppedGone(id: nat)
      requires id in old(rooms) && gone == old(gone)[id := old(rooms)[id]]
      requires forall o :: o in old(Objects()) ==> unchanged(o)
      ensures id in old(Abs()).rooms && Abs().gone == old(Abs()).gone[id := old(Abs()).rooms[id]]
    {
      AllStoodStill();
      hide CtrRoom.Value, Objects;
    }

    /** Takes a room off the table. */
    method Drop(id: nat)
      requires Shape() && id in rooms
      modifies this`rooms, this`gone
      ensures Shape() && Objects() == old(Objects()) && rooms == old(rooms) - {id}
      ensures Abs() == DropRoom(old(Abs()), id)
    {
      gone := gone[id := rooms[id]];
      rooms := rooms - {id};
      Dropped(id);
      DroppedAbs(id);
    }

    method EvictOne(id: nat, pid: nat, ghost st: State, ghost drops: set<nat>)
      requires Shape() && id in rooms && st == Abs() && id in st.rooms
      requires id in drops <==> st.rooms[id].host.conn.pid == pid
      modifies this`rooms, this`gone, Objects()
      ensures Shape() && Objects() == old(Objects()) && rooms.Keys + {id} == old(rooms).Keys
      ensures Abs() == SweepRoom(st, id, drops, Evicting(pid))
    {
      AbsAt(id);
      hide Abs, Steps.EvictFrom;
      var r := rooms[id];
      if r.host.conn.pid == pid {
        Drop(id);
      } else {
        r.EvictLeader(pid);
        RoomChanged(r);
      }
    }

    method EvictNext(id: nat, pid: nat, ghost st: State, ghost done: set<nat>)
      requires Shape() && id in rooms && id in st.rooms && id !in done
      requires Abs() == Swept(st, done, HostedBy(st, pid), Evicting(pid))
      modifies this`rooms, this`gone, Objects()
      ensures Shape() && Objects() == old(Objects()) && rooms.Keys + {id} == old(rooms).Keys
      ensures Abs() == Swept(st, done + {id}, HostedBy(st, pid), Evicting(pid))
    {
      hide Swept, SweepRoom, Shape, Abs, Objects, Evicting;
      SweepMore(st, done, id, HostedBy(st, pid), Evicting(pid));
      EvictOne(id, pid, Swept(st, done, HostedBy(st, pid), Evicting(pid)), HostedBy(st, pid));
    }

    /** enqueue's second loop: rooms the account hosts go, and it loses its seat elsewhere. */
    method EvictSeats(pid: nat, ghost st: State)
      requires Shape() && st == Abs()
      modifies this`rooms, this`gone, Objects()
      ensures Shape() && Objects() == old(Objects())
      ensures Abs() == Swept(st, st.rooms.Keys, HostedBy(st, pid), Evicting(pid))
    {
      AbsKeys();
      hide Shape, Abs, Objects, Evicting, HostedBy, Swept;
      SweepNone(st, HostedBy(st, pid), Evicting(pid));
      var todo := rooms.Keys;
      ghost var done: set<nat> := {};
      while todo != {}
        invariant Shape() && Objects() == old(Objects())
        invariant todo <= rooms.Keys && todo <= st.rooms.Keys && done == st.rooms.Keys - todo
        invariant Abs() == Swept(st, done, HostedBy(st, pid), Evicting(pid))
        decreases |todo|
      {
        var id :| id in todo;
        EvictNext(id, pid, st, done);
        todo, done := todo - {id}, done + {id};
      }
      assert done == st.rooms.Keys;
    }

    // ---------- cancel and leave ----------

    method Cancel(c: Conn, id: nat) returns (found: bool)
      requires Valid()
      modifies this`waiting
      ensures Valid() && Objects() == old(Objects()) && Abs() == Steps.Cancel(old(Abs()), c, id)
      ensures found <==> exists p :: p in old(waiting) && p.conn == c && p.id == id
    {
      hide Spec.Inv, Abs, Shape, Objects, Steps.Cancel, DropFirst, First;
      Spec.CancelKeeps(Abs(), c, id);
      AbsWaiting();
      CancelIsDrop(Abs(), c, id);
      var i := 0;
      while i < |waiting| && !(waiting[i].conn == c && waiting[i].id == id)
        invariant i <= |waiting|
        invariant forall k :: 0 <= k < i ==> !(waiting[k].conn == c && waiting[k].id == id)
      {
        i := i + 1;
      }
      DropAt(waiting, IsRequest(c, id), i);
      found := i < |waiting|;
      if found {
        assert waiting[i] in waiting;
        waiting := waiting[..i] + waiting[i+1..];
      }
      QueueChanged();
    }

    method LeaveOne(k: nat, c: Conn, id: nat, ghost st: State, ghost drops: set<nat>)
      requires Shape() && k in rooms && st == Abs() && k in st.rooms && st.rooms[k].id == k
      requires k in drops <==> Steps.Disbands(st.rooms[k], c, id)
      modifies this`rooms, this`gone, Objects()
      ensures Shape() && Objects() == old(Objects()) && rooms.Keys + {k} == old(rooms).Keys
      ensures Abs() == SweepRoom(st, k, drops, Leaving(c, id))
    {
      AbsAt(k);
      hide Abs, DropFirst;
      var r := rooms[k];
      if id != 0 && k != id {
        RoomChanged(r);
      } else if r.host.conn == c {
        Drop(k);
      } else {
        r.Leave(c);
        RoomChanged(r);
      }
    }

    method LeaveNext(k: nat, c: Conn, id: nat, ghost st: State, ghost done: set<nat>)
      requires Shape() && k in rooms && k in st.rooms && k !in done && st.rooms[k].id == k
      requires Abs() == Swept(st, done, DisbandedBy(st, c, id), Leaving(c, id))
      modifies this`rooms, this`gone, Objects()
      ensures Shape() && Objects() == old(Objects()) && rooms.Keys + {k} == old(rooms).Keys
      ensures Abs() == Swept(st, done + {k}, DisbandedBy(st, c, id), Leaving(c, id))
    {
      hide Swept, SweepRoom, Shape, Abs, Objects, Leaving, Steps.Disbands;
      SweepMore(st, done, k, DisbandedBy(st, c, id), Leaving(c, id));
      LeaveOne(k, c, id, Swept(st, done, DisbandedBy(st, c, id), Leaving(c, id)), DisbandedBy(st, c, id));
    }

    /** leave's loop over the table. */
    method LeaveSeats(c: Conn, id: nat, ghost st: State)
      requires Shape() && st == Abs() && Steps.TableKeyed(st)
      modifies this`rooms, this`gone, Objects()
      ensures Shape() && Objects() == old(Objects())
      ensures Abs() == Swept(st, st.rooms.Keys, DisbandedBy(st, c, id), Leaving(c, id))
    {
      AbsKeys();
      hide Shape, Abs, Objects, Leaving, DisbandedBy, Swept;
      SweepNone(st, DisbandedBy(st, c, id), Leaving(c, id));
      var todo := rooms.Keys;
      ghost var done: set<nat> := {};
      while todo != {}
        invariant Shape() && Objects() == old(Objects())
        invariant todo <= rooms.Keys && todo <= st.rooms.Keys && done == st.rooms.Keys - todo
        invariant Abs() == Swept(st, done, DisbandedBy(st, c, id), Leaving(c, id))
        decreases |todo|
      {
        var k :| k in todo;
        LeaveNext(k, c, id, st, done);
        todo, done := todo - {k}, done + {k};
      }
      assert done == st.rooms.Keys;
    }

    method Leave(c: Conn, id: nat)
      requires Valid()
      modifies this, Objects()
      ensures Valid() && Objects() == old(Objects()) && Abs() == Steps.Leave(old(Abs()), c, id)
    {
      ghost var st := Abs();
      Spec.LeaveKeeps(st, c, id);
      Spec.InvKeyed(st);
      LeaveIsSweep(st, c, id);
      AbsWaiting();
      hide Spec.Inv, Abs, Shape, Objects, Steps.Leave, Spec.Keyed;
      Unqueue(NotOfConn(c));
      LeaveSeats(c, id, st.(waiting := Select(st.waiting, NotOfConn(c))));
      DisbandedSame(st, c, id, Select(st.waiting, NotOfConn(c)));
      SweptQueue(st, DisbandedBy(st, c, id), Leaving(c, id), Select(st.waiting, NotOfConn(c)));
    }

    // ---------- the scan over the sorted rooms ----------

    method ExactOccupancy(id: nat, ghost st: State) returns (n: nat)
      requires Shape() && Flat() && id in rooms && st == Abs()
      ensures id in st.rooms && n == Steps.Occupancy(st, st.rooms[id]) && st.rooms[id].id == id
      ensures Shape() && Flat() && st == Abs()
    {
      hide Abs, Shape, Flat, Knows, CtrRoom.Value, Steps.Occupancy, Steps.OwnSeats;
      RoomAt(id, st);
      FlatAt(id);
      n := rooms[id].Occupancy();
      OccupancyIs(rooms[id]);
    }

    lemma FlatAt(id: nat)
      requires Shape() && Flat() && id in rooms
      ensures rooms[id].mergeSource != null ==> rooms[id].mergeSource.mergeSource == null
    {
    }

    /** Where room `id` goes in the search order. */
    method Rank(order: seq<nat>, id: nat, ghost st: State) returns (i: nat)
      requires Shape() && Flat() && id in rooms && id !in order && st == Abs()
      requires forall k :: k in order ==> k in rooms
      ensures i <= |order| && (forall k :: 0 <= k < i ==> Ahead(st, order[k], id))
      ensures i < |order| ==> Ahead(st, id, order[i])
      ensures Shape() && Flat() && st == Abs()
    {
      hide Shape, Flat, Abs, Objects, Steps.Occupancy;
      var mine := ExactOccupancy(id, st);
      i := 0;
      while i < |order|
        invariant i <= |order| && Shape() && Flat() && st == Abs()
        invariant forall k :: 0 <= k < i ==> Ahead(st, order[k], id)
      {
        var other := ExactOccupancy(order[i], st);
        if !(other > mine || (other == mine && order[i] < id)) { return; }
        i := i + 1;
      }
    }

    /** The rooms, fullest first, then oldest first. */
    method Ranked(ghost st: State) returns (order: seq<nat>)
      requires Shape() && Flat() && st == Abs()
      ensures InOrder(st, order) && (forall id :: id in order <==> id in rooms)
      ensures Shape() && Flat() && st == Abs()
    {
      hide Shape, Flat, Abs, InOrder, Ahead, Objects;
      order := [];
      OrderEmpty(st);
      var todo := rooms.Keys;
      while todo != {}
        invariant todo <= rooms.Keys && Shape() && Flat() && st == Abs()
        invariant InOrder(st, order) && forall id :: id in order <==> id in rooms && id !in todo
        decreases |todo|
      {
        var id :| id in todo;
        var i := Rank(order, id, st);
        InsertOrder(st, order, i, id);
        InsertMembers(order, i, id);
        order := order[..i] + [id] + order[i..];
        todo := todo - {id};
      }
    }

    /** Forgets a merge target that has left the table. */
    method ForgetStale(id: nat, ghost st: State)
      requires Shape() && Flat() && id in rooms && st == Abs()
      modifies Objects()
      ensures Shape() && Flat() && Objects() == old(Objects()) && Abs() == ForgetIn(st, id) && id in st.rooms
    {
      AbsAt(id);
      AbsKeys();
      var r := rooms[id];
      if r.mergeTarget != 0 && r.mergeTarget !in rooms {
        r.mergeTarget := 0;
        RoomChanged(r);
      }
    }

    /** enqueue's checks on one room, after its stale target is forgotten. */
    method Suits(id: nat, s: Search, ghost st: State) returns (yes: bool)
      requires Shape() && Flat() && id in rooms && st == Abs()
      ensures id in st.rooms && Shape() && Flat() && st == Abs()
      ensures yes <==> st.rooms[id].target == 0 && Steps.Vacant(st, st.rooms[id], s)
    {
      AbsAt(id);
      var r := rooms[id];
      var occupied := ExactOccupancy(id, st);
      SourceIs(r);
      hide Shape, Flat, Abs, Objects, Steps.Occupancy;
      yes := !(r.mergeTarget != 0 || r.mergeSource != null) && r.open && r.host.filter == s.filter
        && occupied + s.seats <= r.capacity && occupied + s.seats <= s.max;
    }

    lemma SourceIs(r: CtrRoom)
      requires Shape() && r.id in rooms && rooms[r.id] == r
      ensures r.Value().source == 0 <==> r.mergeSource == null
    {
    }

    /** enqueue's loop over the sorted rooms: the room that takes `s`, 0 when none does. */
    method Scan(s: Search, ghost st: State) returns (sel: nat)
      requires Shape() && Flat() && st == Abs() && Steps.TableKeyed(st) && 0 !in rooms
      modifies Objects()
      ensures Shape() && Flat() && Objects() == old(Objects()) && rooms == old(rooms)
      ensures sel == Steps.Leader(st, Steps.Admitting(st, s)) && Abs() == Steps.Scanned(st, sel)
    {
      AbsKeys();
      hide *;
      var order := Ranked(st);
      ScanNone(st);
      for i := 0 to |order|
        invariant Shape() && Flat() && Objects() == old(Objects())
        invariant Abs() == ScannedRooms(st, order[..i])
        invariant forall k :: 0 <= k < i ==> order[k] in st.rooms && !Steps.Admits(st, st.rooms[order[k]], s)
      {
        sel := order[i];
        ForgetStale(sel, ScannedRooms(st, order[..i]));
        assert order[..i+1] == order[..i] + [sel];
        ScanMore(st, order[..i], sel);
        var yes := Suits(sel, s, ScannedRooms(st, order[..i+1]));
        ScanDecides(st, order[..i+1], sel, s);
        if yes {
          ScanEnds(st, order, i, s);
          return;
        }
      }
      ScanFails(st, order, s);
      sel := 0;
    }

    // ---------- enqueue ----------

    lemma ExpectedIs(r: CtrRoom)
      requires Shape() && r.id in rooms && rooms[r.id] == r
      ensures Steps.Expected(Abs(), r.Value()) ==
        set p, m | p in r.players + (if r.mergeSource == null then [] else r.mergeSource.players) && m in p.members && !r.Failed(m) :: m
    {
      var q := if r.mergeSource == null then [] else r.mergeSource.players;
      assert Steps.PlayersOf(Abs(), r.Value().source) == q;
      assert forall m :: r.Value().Failed(m) == r.Failed(m);
    }

    method UpdateNotice(id: nat, ghost st: State) returns (n: Notice)
      requires Shape() && id in rooms && st == Abs()
      ensures Shape() && st == Abs() && id in st.rooms && n == Steps.UpdateNotice(st, st.rooms[id])
    {
      AbsAt(id);
      var r := rooms[id];
      var expected := r.Expecting();
      ExpectedIs(r);
      n := Notice(r.host.conn, UPDATE_LOBBY, [r.id, r.version], expected);
    }

    method SeatIn(id: nat, s: Search, ghost st: State)
      requires Shape() && id in rooms && st == Abs()
      modifies Objects()
      ensures Shape() && Objects() == old(Objects()) && id in st.rooms
      ensures Abs() == Steps.WithRoom(st, Steps.Bump(Steps.Seat(st.rooms[id], s)))
    {
      AbsAt(id);
      hide Abs, Steps.Seat;
      var r := rooms[id];
      r.TakeSeat(s);
      r.version := r.version + 1;
      RoomChanged(r);
    }

    /** Seats `s` in a live room, raises its version and asks the host for a new document. */
    method Admit(id: nat, s: Search, ghost st: State) returns (out: seq<Notice>)
      requires Shape() && id in rooms && st == Abs()
      modifies Objects()
      ensures Shape() && Objects() == old(Objects()) && id in st.rooms
      ensures Abs() == Steps.Place(st, id, s).state && out == Steps.Place(st, id, s).out
    {
      AbsAt(id);
      assert st.rooms[id].id == id;
      hide Shape, Abs, Objects, Steps.Expected;
      SeatIn(id, s, st);
      var n := UpdateNotice(id, Steps.WithRoom(st, Steps.Bump(Steps.Seat(st.rooms[id], s))));
      out := [n];
    }

    /** enqueue's grouping loop. */
    method Collect(filter: string) returns (group: seq<Search>, seats: nat, minimum: nat, maximum: nat)
      ensures Steps.Group(group, seats, minimum, maximum) == Steps.Greedy(waiting, filter)
    {
      group, seats, minimum, maximum := [], 0, 2, 8;
      for i := 0 to |waiting|
        invariant Steps.Group(group, seats, minimum, maximum) == Steps.Greedy(waiting[..i], filter)
      {
        var p := waiting[i];
        assert waiting[..i+1][..i] == waiting[..i] && waiting[..i+1][i] == p;
        if p.filter != filter { continue; }
        var nextMin, nextMax := Max(minimum, p.min), Min(maximum, p.max);
        if nextMin > nextMax || seats + p.seats > nextMax { continue; }
        group, seats, minimum, maximum := group + [p], seats + p.seats, nextMin, nextMax;
      }
      assert waiting[..|waiting|] == waiting;
    }

    /** Takes the picked searches out of the queue, keeping the order of the others. */
    method Unpick(group: seq<Search>)
      requires Shape()
      modifies this`waiting
      ensures Shape() && Objects() == old(Objects()) && Abs() == old(Abs()).(waiting := Select(old(waiting), NotIn(group)))
    {
      var remaining := [];
      for i := 0 to |waiting|
        invariant waiting == old(waiting)
        invariant remaining == Select(waiting[..i], NotIn(group))
      {
        assert waiting[..i+1][..i] == waiting[..i];
        if waiting[i] !in group { remaining := remaining + [waiting[i]]; }
      }
      assert waiting[..|waiting|] == waiting;
      hide Shape, Abs, Objects;
      waiting := remaining;
      QueueChanged();
    }

    twostate lemma RoomAdded(new o: CtrRoom)
      requires old(Shape()) && o.id !in old(rooms) && o.id !in old(gone) && o.id != 0 && o.mergeSource == null
      requires waiting == old(waiting) && rooms == old(rooms)[o.id := o] && gone == old(gone)
      requires forall x :: x in old(Objects()) ==> unchanged(x)
      ensures Shape()
      ensures Abs() == old(Abs()).(rooms := old(Abs()).rooms[o.id := o.Value()], ids := ids)
    {
      RoomAddedShape(o);
      hide Shape;
      RoomAddedAbs(o);
    }

    twostate lemma RoomAddedShape(new o: CtrRoom)
      requires old(Shape()) && o.id !in old(rooms) && o.id !in old(gone) && o.id != 0 && o.mergeSource == null
      requires rooms == old(rooms)[o.id := o] && gone == old(gone)
      requires forall x :: x in old(Objects()) ==> unchanged(x)
      ensures Shape()
    {
      AllStoodStill();
      hide CtrRoom.Value, Objects;
    }

    twostate lemma RoomAddedAbs(new o: CtrRoom)
      requires o.id !in old(rooms)
      requires waiting == old(waiting) && rooms == old(rooms)[o.id := o] && gone == old(gone)
      requires forall x :: x in old(Objects()) ==> unchanged(x)
      ensures Abs() == old(Abs()).(rooms := old(Abs()).rooms[o.id := o.Value()], ids := ids)
    {
      AllStoodStill();
      hide CtrRoom.Value, Objects;
      assert Abs().rooms == old(Abs()).rooms[o.id := o.Value()];
      assert Abs().gone == old(Abs()).gone;
    }

    /** A new room enters the table. */
    method OpenRoom(r: Room) returns (o: CtrRoom)
      requires Shape() && r.id == ids + 1 && r.id !in rooms && r.id !in gone && r.source == 0
      modifies this`rooms, this`ids
      ensures Shape() && fresh(o) && rooms == old(rooms)[r.id := o] && gone == old(gone) && o.mergeSource == null
      ensures o.Value() == r && o.id == r.id
      ensures Abs() == State(old(waiting), old(Abs()).rooms[r.id := r], old(Abs()).gone, r.id)
    {
      o := new CtrRoom(r);
      rooms := rooms[r.id := o];
      ids := r.id;
      hide Abs, Shape;
      RoomAdded(o);
    }

    /** The backend document's players for a room without a reservation. */
    method CreateNotice(o: CtrRoom, ghost st: State) returns (n: Notice)
      requires Shape() && st == Abs() && o.id in rooms && rooms[o.id] == o && o.version == 1
      ensures Shape() && st == Abs() && o.id in st.rooms
      ensures n == Notice(o.host.conn, CREATE_LOBBY, [o.host.id, o.id, 1], Steps.Expected(st, st.rooms[o.id]))
    {
      AbsAt(o.id);
      var expected := o.Expecting();
      ExpectedIs(o);
      n := Notice(o.host.conn, CREATE_LOBBY, [o.host.id, o.id, o.version], expected);
    }

    lemma FreshId(st: State)
      requires Spec.Keyed(st) && st == Abs()
      ensures ids + 1 !in rooms && ids + 1 !in gone
    {
      AbsKeys();
    }

    /** Opens a room for a group that is big enough; the group leaves the queue. */
    method Launch(g: Steps.Group, ghost st: State) returns (out: seq<Notice>)
      requires Shape() && st == Abs() && g.picked != [] && ids + 1 !in rooms && ids + 1 !in gone
      modifies this`waiting, this`rooms, this`ids
      ensures Shape() && Grown()
      ensures Abs() == Steps.Launched(st, g).state && out == Steps.Launched(st, g).out
    {
      AbsWaiting();
      var r := OpenRoom(Steps.NewRoom(ids + 1, g));
      hide Shape, Abs, Steps.Expected, Select;
      ghost var st1 := Abs();
      NewObjects(r);
      Unpick(g.picked);
      var n := CreateNotice(r, Steps.Launched(st, g).state);
      out := [n];
    }

    twostate lemma NewObjects(new o: CtrRoom)
      requires rooms == old(rooms)[o.id := o] && gone == old(gone) && fresh(o)
      ensures Grown()
    {
      assert rooms.Values <= old(rooms).Values + {o};
    }

    /** The rest of enqueue when no room takes `s`. */
    method Gather(s: Search, ghost st: State) returns (out: seq<Notice>)
      requires Shape() && st == Abs() && Steps.ValidSearch(s) && Spec.QueueOk(st.waiting) && Spec.Keyed(st)
      modifies this`waiting, this`rooms, this`ids
      ensures Shape() && Abs() == Steps.Gather(st, s).state && out == Steps.Gather(st, s).out
      ensures Grown()
    {
      hide Shape, Abs, Spec.Keyed, Spec.QueueOk, Steps.ValidSearch, Steps.Greedy, Steps.Gather, Steps.Launched;
      FreshId(st);
      AbsWaiting();
      ghost var w := st.waiting + [s];
      waiting := waiting + [s];
      QueueChanged();
      var group, seats, minimum, maximum := Collect(s.filter);
      GatherCases(st, s);
      if seats < minimum { return []; }
      out := Launch(Steps.Group(group, seats, minimum, maximum), st.(waiting := w));
    }

    lemma AbsWaiting()
      ensures Abs().waiting == waiting && Abs().ids == ids
    {
    }

    /** The account's earlier search and seats go. */
    method EvictAccount(pid: nat, ghost st: State)
      requires Shape() && st == Abs()
      modifies this`waiting, this`rooms, this`gone, Objects()
      ensures Shape() && Objects() == old(Objects()) && Abs() == Steps.Evict(st, pid)
    {
      EvictIsSweep(st, pid);
      AbsWaiting();
      hide Abs, Shape, Objects, Steps.Evict, Swept, HostedBy, Evicting, Select;
      Unqueue(NotLedBy(pid));
      EvictSeats(pid, st.(waiting := Select(st.waiting, NotLedBy(pid))));
      HostedSame(st, pid, Select(st.waiting, NotLedBy(pid)));
      SweptQueue(st, HostedBy(st, pid), Evicting(pid), Select(st.waiting, NotLedBy(pid)));
    }

    /** A search arrives: it replaces whatever its account had, joins the best open room, or
        waits, possibly completing a group. */
    method Enqueue(s: Search) returns (out: seq<Notice>)
      requires Valid() && Steps.ValidSearch(s)
      modifies this, Objects()
      ensures Valid() && Grown() && Steps.TableKeyed(old(Abs()))
      ensures Abs() == Steps.Enqueue(old(Abs()), s).state && out == Steps.Enqueue(old(Abs()), s).out
    {
      hide Spec.Inv, Abs, Shape, Steps.Evict, Spec.Keyed, Spec.QueueOk, Steps.ValidSearch, Flat, Objects;
      hide Steps.Place, Steps.Gather, Steps.Scanned, Steps.Admits;
      ghost var st := Abs();
      ghost var st1 := Steps.Evict(st, s.conn.pid);
      Spec.InvKeyed(st);
      Spec.EvictKeeps(st, s.conn.pid);
      Spec.EnqueueKeeps(st, s);
      EvictAccount(s.conn.pid, st);
      InvFacts(st1);
      var sel := Scan(s, st1);
      ghost var st2 := Steps.Scanned(st1, sel);
      Spec.ScannedKeeps(st1, sel);
      InvFacts(st2);
      if sel != 0 {
        out := Admit(sel, s, st2);
      } else {
        PlaceQueues(st2, s);
        out := Gather(s, st2);
      }
    }

    lemma InvFacts(st: State)
      requires Shape() && st == Abs() && Spec.Inv(st)
      ensures Flat() && Steps.TableKeyed(st) && Spec.QueueOk(st.waiting) && Spec.Keyed(st)
      ensures rooms.Keys == st.rooms.Keys && 0 !in rooms
    {
      CoreIsFlat();
    }

    // ---------- merging ----------

    /** Only a room that has left the table changed. */
    twostate lemma GoneChanged(r: CtrRoom)
      requires old(Shape()) && r.id in old(gone) && old(gone)[r.id] == r
      requires waiting == old(waiting) && rooms == old(rooms) && gone == old(gone) && ids == old(ids)
      requires forall o :: o in old(Objects()) && o != r ==> unchanged(o)
      requires r.mergeSource == old(r.mergeSource)
      ensures Shape() && Objects() == old(Objects())
      ensures Abs() == old(Abs()).(gone := old(Abs()).gone[r.id := r.Value()])
    {
      OneGone(r);
      GoneChangedShape(r);
      hide Shape;
      GoneChangedAbs(r);
    }

    twostate lemma OneGone(r: CtrRoom)
      requires old(Shape()) && r.id in old(gone) && old(gone)[r.id] == r
      ensures forall k :: k in old(rooms) ==> old(rooms)[k] != r
      ensures forall k :: k in old(gone) && k != r.id ==> old(gone)[k] != r
    {
      hide Abs, CtrRoom.Value;
    }

    twostate lemma GoneChangedShape(r: CtrRoom)
      requires old(Shape()) && rooms == old(rooms) && gone == old(gone) && r.mergeSource == old(r.mergeSource)
      requires forall o :: o in old(Objects()) && o != r ==> unchanged(o)
      requires forall k :: k in old(rooms) ==> old(rooms)[k] != r
      ensures Shape() && Objects() == old(Objects())
    {
      OthersStoodStill(r);
      hide CtrRoom.Value, Objects;
      assert Shape();
      assert Objects() == old(Objects()) by { SameObjects(); }
    }

    twostate lemma GoneChangedAbs(r: CtrRoom)
      requires waiting == old(waiting) && rooms == old(rooms) && gone == old(gone) && ids == old(ids)
      requires r.id in old(gone) && old(gone)[r.id] == r
      requires forall k :: k in old(rooms) ==> old(rooms)[k] != r
      requires forall k :: k in old(gone) && k != r.id ==> old(gone)[k] != r
      requires forall o :: o in old(Objects()) && o != r ==> unchanged(o)
      ensures Abs() == old(Abs()).(gone := old(Abs()).gone[r.id := r.Value()])
    {
      OthersStoodStill(r);
      hide CtrRoom.Value, Objects;
      assert Abs().gone == old(Abs()).gone[r.id := r.Value()];
      assert Abs().rooms == old(Abs()).rooms;
    }

    method IsMergeOpen(id: nat, ghost st: State) returns (yes: bool)
      requires Shape() && Flat() && id in rooms && st == Abs()
      ensures Shape() && Flat() && st == Abs() && id in st.rooms
      ensures yes <==> Steps.MergeOpen(st, st.rooms[id])
    {
      hide Abs, Shape, Flat, Knows, CtrRoom.Value, Steps.Occupancy, Steps.MergeOpen, JoinedIn;
      RoomAt(id, st);
      var occupied := ExactOccupancy(id, st);
      var connected := rooms[id].Connected();
      OpenWhen(st, st.rooms[id]);
      yes := rooms[id].open && connected == occupied && occupied > 0;
    }

    /** Whether finishMerge's conditions hold for the room that `src` is. */
    method Stands(id: nat, src: CtrRoom, ghost st: State) returns (yes: bool)
      requires Shape() && Flat() && id in rooms && st == Abs() && rooms[id].mergeSource == src
      ensures Shape() && Flat() && st == Abs() && id in st.rooms && st.rooms[id].source == src.id
      ensures yes ==> src.id in rooms && rooms[src.id] == src
      ensures yes <==> src.id in st.rooms && Steps.MergeStands(st, st.rooms[id], st.rooms[src.id])
    {
      hide Abs, Shape, Flat, Knows, CtrRoom.Value, Steps.Occupancy, Steps.MergeOpen, Steps.MergeStands, Steps.DisjointParties;
      RoomAt(id, st);
      KnownKeys(src);
      var r := rooms[id];
      if src.id !in rooms { return false; }
      RoomAt(src.id, st);
      var open := IsMergeOpen(src.id, st);
      var apart := Disjoint(r.players, src.players);
      yes := src.mergeTarget == r.id && r.open && open && apart;
      var lost := r.TimedOutAmong(src.players);
      RoomAt(id, st);
      StandsWhen(st, st.rooms[id], st.rooms[src.id], lost);
      if lost { yes := false; }
    }

    method DropMerge(id: nat, src: CtrRoom, ghost st: State)
      requires Shape() && id in rooms && st == Abs() && rooms[id].mergeSource == src && src != rooms[id]
      modifies Objects()
      ensures Shape() && Objects() == old(Objects()) && id in st.rooms && id in rooms && Abs() == Steps.CancelMerge(st, id)
    {
      AbsAt(id);
      AbsKeys();
      assert Knows(src);
      var r := rooms[id];
      assert r.id == id && src.id != id;
      DropSource(r, st);
      ForgetTarget(src, Steps.WithRoom(st, st.rooms[id].(source := 0, version := st.rooms[id].version + 1)));
      CancelIs(st, id, src.id);
    }

    method DropSource(r: CtrRoom, ghost st: State)
      requires Shape() && r.id in rooms && rooms[r.id] == r && st == Abs()
      modifies r
      ensures Shape() && Objects() == old(Objects()) && r.id in st.rooms
      ensures forall o :: o in Objects() && o != r ==> unchanged(o)
      ensures Abs() == Steps.WithRoom(st, st.rooms[r.id].(source := 0, version := st.rooms[r.id].version + 1))
    {
      AbsAt(r.id);
      hide Abs, Shape, Steps.WithRoom;
      r.mergeSource := null;
      r.version := r.version + 1;
      RoomChanged(r);
    }

    method ForgetTarget(src: CtrRoom, ghost st: State)
      requires Shape() && Knows(src) && st == Abs()
      modifies src`mergeTarget
      ensures Shape() && Objects() == old(Objects())
      ensures src.id in st.rooms || src.id in st.gone
      ensures Abs() == if src.id in st.rooms then st.(rooms := st.rooms[src.id := st.rooms[src.id].(target := 0)])
        else st.(gone := st.gone[src.id := st.gone[src.id].(target := 0)])
    {
      AbsKeys();
      assert src.id in rooms ==> Abs().rooms[src.id] == src.Value();
      assert src.id in gone ==> Abs().gone[src.id] == src.Value();
      assert src.id in rooms ==> rooms[src.id] == src;
      hide Abs, Shape;
      src.mergeTarget := 0;
      if src.id in rooms { RoomChanged(src); } else { GoneChanged(src); }
    }

    method CommitMerge(id: nat, src: CtrRoom, ghost st: State)
      requires Shape() && id in rooms && st == Abs() && rooms[id].mergeSource == src && src != rooms[id]
      requires src.id in rooms && rooms[src.id] == src
      modifies this`rooms, this`gone, Objects()
      ensures Shape() && Objects() == old(Objects()) && id in st.rooms && st.rooms[id].source in st.rooms && id in rooms
      ensures Abs() == Steps.CommitMerge(st, id)
    {
      AbsAt(id);
      AbsAt(src.id);
      var r := rooms[id];
      assert r.id == id && src.id != id;
      hide Abs, Shape, Steps.Absorbed;
      r.Absorb(src);
      RoomChanged(r);
      Drop(src.id);
      CommitIs(st, id);
    }

    lemma KnownKeys(r: CtrRoom)
      requires Shape() && Knows(r)
      ensures r.id in Abs().rooms <==> r.id in rooms
      ensures r.id in rooms ==> rooms[r.id] == r && Abs().rooms[r.id] == r.Value()
      ensures r.id in rooms || r.id in Abs().gone
    {
    }

    method ExpectedNow(id: nat, ghost st: State) returns (expected: set<nat>)
      requires Shape() && id in rooms && st == Abs()
      ensures Shape() && st == Abs() && id in st.rooms && expected == Steps.Expected(st, st.rooms[id])
    {
      AbsAt(id);
      expected := rooms[id].Expecting();
      ExpectedIs(rooms[id]);
    }

    lemma SourceLink(id: nat, st: State)
      requires Shape() && id in rooms && st == Abs() && MatchSync.Almost(st, id) && Steps.TableKeyed(st)
      ensures id in st.rooms && Flat() && rooms[id].id == id
      ensures rooms[id].mergeSource == null <==> st.rooms[id].source == 0
      ensures rooms[id].mergeSource != null ==>
        && rooms[id].mergeSource.id == st.rooms[id].source && rooms[id].mergeSource != rooms[id] && Knows(rooms[id].mergeSource)
        && (st.rooms[id].source in st.rooms ==> st.rooms[st.rooms[id].source].players == rooms[id].mergeSource.players)
    {
      CoreIsFlat();
      AbsAt(id);
      SourceIs(rooms[id]);
      if rooms[id].mergeSource != null {
        SourceKnown(st, id);
        KnownKeys(rooms[id].mergeSource);
      }
    }

    /** ctr_merge.go's finishMerge. */
    method FinishMerge(id: nat, ghost st: State) returns (out: seq<Notice>)
      requires Shape() && id in rooms && st == Abs() && Steps.TableKeyed(st) && id in st.rooms && MatchSync.Almost(st, id)
      modifies this`rooms, this`gone, Objects()
      ensures Shape() && Objects() == old(Objects()) && id in rooms
      ensures Abs() == Steps.FinishMerge(st, id).state && out == Steps.FinishMerge(st, id).out
    {
      hide Steps.FinishMerge, Abs, Shape, Flat, MatchSync.Almost, Steps.MergeStands, Steps.Expected;
      hide Steps.CancelMerge, Steps.CommitMerge, Steps.TableKeyed, Steps.UpdateNotice;
      SourceLink(id, st);
      FinishCases(st, id);
      var src := rooms[id].mergeSource;
      if src == null { return []; }
      var moved, from := src.players, src.id;
      var valid := Stands(id, src, st);
      if !valid {
        DropMerge(id, src, st);
        var n := UpdateNotice(id, Steps.CancelMerge(st, id));
        out := [n];
      } else {
        CommitMerge(id, src, st);
        var expected := ExpectedNow(id, Steps.CommitMerge(st, id));
        out := MergeEvents(moved, from, id, expected);
      }
    }

    method CanAbsorb(id: nat, k: nat, ghost st: State) returns (yes: bool)
      requires Shape() && Flat() && id in rooms && k in rooms && st == Abs()
      ensures Shape() && Flat() && st == Abs() && id in st.rooms && k in st.rooms
      ensures yes <==> Steps.CanAbsorb(st, st.rooms[id], st.rooms[k])
    {
      hide Abs, Shape, Flat, Knows, CtrRoom.Value, Steps.Occupancy, Steps.MergeOpen, Steps.CanAbsorb, Steps.DisjointParties;
      RoomAt(id, st);
      RoomAt(k, st);
      AbsorbsWhen(st, st.rooms[id], st.rooms[k]);
      var dst, src := rooms[id], rooms[k];
      var ours := ExactOccupancy(id, st);
      var theirs := ExactOccupancy(k, st);
      var open := IsMergeOpen(k, st);
      if src.id == dst.id || src.mergeTarget != 0 || src.mergeSource != null || !open || src.host.filter != dst.host.filter { return false; }
      if theirs > ours || (theirs == ours && src.id < dst.id) { return false; }
      var apart := Disjoint(src.players, dst.players);
      return theirs + ours <= Min(src.capacity, dst.capacity) && apart;
    }

    /** startMerge's candidates, best first. */
    method Candidates(id: nat, ghost st: State) returns (order: seq<nat>)
      requires Shape() && Flat() && st == Abs() && id in rooms
      ensures id in st.rooms && InOrder(st, order) && (forall k :: k in order <==> k in Steps.Candidates(st, st.rooms[id]))
      ensures Shape() && Flat() && st == Abs() && forall k :: k in order ==> k in rooms
    {
      AbsKeys();
      hide Shape, Flat, Abs, InOrder, Ahead, Steps.CanAbsorb, Objects;
      order := [];
      OrderEmpty(st);
      var todo := rooms.Keys;
      while todo != {}
        invariant todo <= rooms.Keys && rooms.Keys == st.rooms.Keys && Shape() && Flat() && st == Abs()
        invariant InOrder(st, order)
        invariant forall k :: k in order <==> k in rooms && k !in todo && Steps.CanAbsorb(st, st.rooms[id], st.rooms[k])
        decreases |todo|
      {
        var k :| k in todo;
        var yes := CanAbsorb(id, k, st);
        if yes {
          var i := Rank(order, k, st);
          InsertOrder(st, order, i, k);
          InsertMembers(order, i, k);
          order := order[..i] + [k] + order[i..];
        }
        todo := todo - {k};
      }
    }

    /** Both sides of a new reservation. */
    method ReserveBoth(id: nat, best: nat, ghost st: State)
      requires Shape() && id in rooms && best in rooms && id != best && st == Abs()
      modifies Objects()
      ensures Shape() && Objects() == old(Objects()) && id in rooms && id in st.rooms && best in st.rooms
      ensures Abs() == Steps.WithRoom(Steps.WithRoom(st, st.rooms[best].(target := id)), Steps.Reserved(st.rooms[id], st.rooms[best]))
    {
      AbsAt(id);
      AbsAt(best);
      var dst, src := rooms[id], rooms[best];
      assert dst.id == id && src.id == best;
      Promise(src, id, st);
      ReservedSame(st.rooms[id], st.rooms[best], id);
      hide Abs, Shape, Steps.Reserved;
      label before:
      dst.Reserve(src);
      RoomChanged@before(dst);
    }

    method Promise(src: CtrRoom, id: nat, ghost st: State)
      requires Shape() && src.id in rooms && rooms[src.id] == src && st == Abs()
      modifies src`mergeTarget
      ensures Shape() && Objects() == old(Objects()) && src.id in st.rooms
      ensures Abs() == Steps.WithRoom(st, st.rooms[src.id].(target := id)) && src.Value() == st.rooms[src.id].(target := id)
    {
      AbsAt(src.id);
      hide Abs, Shape;
      src.mergeTarget := id;
      RoomChanged(src);
    }

    /** ctr_merge.go's startMerge. */
    method StartMerge(id: nat, ghost st0: State) returns (out: seq<Notice>)
      requires Shape() && id in rooms && st0 == Abs() && Spec.Inv(st0)
      modifies Objects()
      ensures Shape() && Objects() == old(Objects()) && id in st0.rooms && Steps.TableKeyed(st0)
      ensures Abs() == Steps.StartMerge(st0, id).state && out == Steps.StartMerge(st0, id).out
    {
      hide Spec.Inv, Shape, Flat, Abs, Steps.MergeOpen, Steps.Occupancy, Steps.Reserved, Spec.Keyed, Spec.QueueOk;
      hide Steps.Expected, Steps.CanAbsorb, InOrder;
      InvFacts(st0);
      ForgetStale(id, st0);
      MatchSync.ForgetKeeps(st0, id);
      ghost var st := Steps.Forget(st0, id);
      ForgetIs(st0, id);
      InvFacts(st);
      AbsAt(id);
      LinkIs(id);
      var dst := rooms[id];
      if dst.mergeTarget != 0 || dst.mergeSource != null { return []; }
      var open := IsMergeOpen(id, st);
      if !open { return []; }
      var order := Candidates(id, st);
      BestOf(st, id, order);
      if |order| == 0 { return []; }
      ReserveBoth(id, order[0], st);
      ghost var st' := Steps.WithRoom(Steps.WithRoom(st, st.rooms[order[0]].(target := id)), Steps.Reserved(st.rooms[id], st.rooms[order[0]]));
      var n := UpdateNotice(id, st');
      out := [n];
    }

    lemma LinkIs(id: nat)
      requires Shape() && id in rooms
      ensures id in Abs().rooms && Abs().rooms[id].target == rooms[id].mergeTarget
      ensures Abs().rooms[id].source == 0 <==> rooms[id].mergeSource == null
    {
      AbsAt(id);
      SourceIs(rooms[id]);
    }

    // ---------- host sync ----------

    method AdoptDoc(id: nat, doc: HostDoc, ghost st: State)
      requires Shape() && id in rooms && st == Abs() && doc.HostDoc?
      modifies Objects()
      ensures Shape() && Objects() == old(Objects()) && rooms == old(rooms) && id in st.rooms && Abs() == Steps.Adopt(st, id, doc)
    {
      AbsAt(id);
      hide Abs, Shape;
      var r := rooms[id];
      r.open, r.states := doc.open, doc.states;
      RoomChanged(r);
    }

    method RejectIn(id: nat, ghost st: State)
      requires Shape() && id in rooms && st == Abs()
      modifies Objects()
      ensures Shape() && Objects() == old(Objects()) && rooms == old(rooms) && id in st.rooms
      ensures Abs() == Steps.WithRoom(st, Steps.Reject(st.rooms[id]))
    {
      AbsAt(id);
      hide Abs, Shape, Steps.Reject;
      var r := rooms[id];
      r.Reject();
      RoomChanged(r);
    }

    method ReleaseIn(id: nat, ghost st: State) returns (out: seq<Notice>)
      requires Shape() && id in rooms && st == Abs()
      modifies Objects()
      ensures Shape() && Objects() == old(Objects()) && rooms == old(rooms) && id in st.rooms
      ensures Abs() == Steps.Release(st, id).state && out == Steps.Release(st, id).out
    {
      hide Abs, Shape, Knows, CtrRoom.Value, Steps.Unreleased, Steps.Expected, Steps.Release, Steps.WithRoom;
      RoomAt(id, st);
      ReleaseIs(st, id);
      var expected := ExpectedNow(id, st);
      RoomAt(id, st);
      var r := rooms[id];
      out := r.Release(expected);
      RoomChanged(r);
    }

    twostate lemma QueueAndRoomChanged(r: CtrRoom)
      requires old(Shape()) && r.id in old(rooms) && old(rooms)[r.id] == r
      requires rooms == old(rooms) && gone == old(gone) && ids == old(ids)
      requires forall o :: o in old(Objects()) && o != r ==> unchanged(o)
      requires r.mergeSource != null ==> Knows(r.mergeSource)
      ensures Shape() && Objects() == old(Objects())
      ensures Abs() == Steps.WithRoom(old(Abs()), r.Value()).(waiting := waiting)
    {
      OneRoom(r);
      RoomChangedShape(r);
      hide Shape;
      RoomChangedAbs(r);
    }

    twostate lemma RoomChangedShape(r: CtrRoom)
      requires old(Shape()) && rooms == old(rooms) && gone == old(gone)
      requires forall k :: k in old(rooms) && k != r.id ==> old(rooms)[k] != r
      requires forall k :: k in old(gone) ==> old(gone)[k] != r
      requires forall o :: o in old(Objects()) && o != r ==> unchanged(o)
      requires r.mergeSource != null ==> Knows(r.mergeSource)
      ensures Shape() && Objects() == old(Objects())
    {
      OthersStoodStill(r);
      hide CtrRoom.Value, Objects;
      assert Shape();
      assert Objects() == old(Objects()) by { SameObjects(); }
    }

    twostate lemma SameObjects()
      requires rooms == old(rooms) && gone == old(gone)
      ensures Objects() == old(Objects())
    {
    }

    twostate lemma RoomChangedAbs(r: CtrRoom)
      requires rooms == old(rooms) && gone == old(gone) && ids == old(ids) && r.id in old(rooms) && old(rooms)[r.id] == r
      requires forall k :: k in old(rooms) && k != r.id ==> old(rooms)[k] != r
      requires forall k :: k in old(gone) ==> old(gone)[k] != r
      requires forall o :: o in old(Objects()) && o != r ==> unchanged(o)
      ensures Abs() == Steps.WithRoom(old(Abs()), r.Value()).(waiting := waiting)
    {
      OthersStoodStill(r);
      assert r.Value().id == r.id;
      hide CtrRoom.Value, Objects;
      assert Abs().rooms == Steps.WithRoom(old(Abs()), r.Value()).rooms;
      assert Abs().gone == old(Abs()).gone;
    }

    /** A live room's object is under its own id only. */
    twostate lemma OneRoom(r: CtrRoom)
      requires old(Shape()) && r.id in old(rooms) && old(rooms)[r.id] == r
      ensures forall k :: k in old(rooms) && k != r.id ==> old(rooms)[k] != r
      ensures forall k :: k in old(gone) ==> old(gone)[k] != r
    {
      hide Abs, CtrRoom.Value;
    }

    method FillIn(id: nat, ghost st: State) returns (added: nat)
      requires Shape() && id in rooms && st == Abs() && rooms[id].mergeSource == null
      modifies this`waiting, Objects()
      ensures Shape() && Objects() == old(Objects()) && rooms == old(rooms) && id in st.rooms
      ensures var f := Steps.FillFrom(st.rooms[id], st.waiting);
        && added == |f.added|
        && Abs() == Steps.WithRoom(st, if added > 0 then Steps.Bump(f.room) else f.room).(waiting := f.rest)
    {
      hide Abs, Shape, Knows, CtrRoom.Value, Steps.FillFrom, Steps.WithRoom, Steps.Bump;
      RoomAt(id, st);
      AbsWaiting();
      var r := rooms[id];
      var rest, n := r.FillFrom(waiting);
      waiting, added := rest, n;
      label filled:
      if added > 0 {
        r.version := r.version + 1;
        Raised@filled(r);
      }
      QueueAndRoomChanged(r);
    }

    twostate lemma Raised(r: CtrRoom)
      requires r.version == old(r.version) + 1 && unchanged(r`host) && unchanged(r`players) && unchanged(r`open) && unchanged(r`states)
      requires unchanged(r`capacity) && unchanged(r`notified) && unchanged(r`mergeSource) && unchanged(r`mergeTarget)
      ensures r.Value() == Steps.Bump(old(r.Value()))
    {
    }

    method Backfill(id: nat, ghost st: State) returns (out: seq<Notice>)
      requires Shape() && id in rooms && st == Abs()
      modifies this`waiting, Objects()
      ensures Shape() && Objects() == old(Objects()) && rooms == old(rooms) && id in st.rooms
      ensures Abs() == Steps.Backfill(st, id).state && out == Steps.Backfill(st, id).out
    {
      AbsAt(id);
      LinkIs(id);
      var r := rooms[id];
      assert r.id == id;
      BackfillCases(st, id);
      hide Abs, Shape, Steps.FillFrom, Steps.Backfill, Steps.UpdateNotice;
      if !r.open || r.mergeTarget != 0 || r.mergeSource != null { return []; }
      var added := FillIn(id, st);
      if added == 0 { return []; }
      var n := UpdateNotice(id, Steps.Backfill(st, id).state);
      out := [n];
    }

    /** finishMerge, rejection, release and backfill of an accepted document. */
    method Settle(id: nat, doc: HostDoc, ghost st: State) returns (out: seq<Notice>)
      requires Shape() && id in rooms && st == Abs() && doc.HostDoc? && Spec.Inv(st)
      modifies this`waiting, this`rooms, this`gone, Objects()
      ensures Shape() && Objects() == old(Objects()) && id in rooms && id in st.rooms && Steps.TableKeyed(st)
      ensures Abs() == Steps.Settle(st, id, doc).state && out == Steps.Settle(st, id, doc).out
    {
      hide Spec.Inv, Shape, Flat, Abs, Steps.Reject, Spec.Keyed, MatchSync.Almost;
      hide Steps.FinishMerge, Steps.Release, Steps.Backfill, Steps.Adopt;
      Spec.InvKeyed(st);
      AdoptDoc(id, doc, st);
      MatchSync.AdoptKeeps(st, id, doc);
      MatchSync.FinishMergeKeeps(Steps.Adopt(st, id, doc), id);
      ghost var a := Steps.FinishMerge(Steps.Adopt(st, id, doc), id).state;
      var merged := FinishMerge(id, Steps.Adopt(st, id, doc));
      RejectIn(id, a);
      ghost var b := Steps.WithRoom(a, Steps.Reject(a.rooms[id]));
      var joins := ReleaseIn(id, b);
      var filled := Backfill(id, Steps.Release(b, id).state);
      out := merged + joins + filled;
    }

    /** A host's document arrives. It counts only from the room's host and with the room's
        current version; it may commit or cancel a merge, free failed seats, release guests,
        seat waiting searches, and, when nothing else happened, reserve a merge. */
    method SyncDoc(c: Conn, id: nat, version: nat, doc: HostDoc) returns (ok: bool, out: seq<Notice>)
      requires Valid()
      modifies this`waiting, this`rooms, this`gone, Objects()
      ensures Valid() && Objects() == old(Objects()) && Steps.TableKeyed(old(Abs()))
      ensures ok <==> Steps.Accepts(old(Abs()), c, id, version, doc)
      ensures Abs() == Steps.Sync(old(Abs()), c, id, version, doc).state && out == Steps.Sync(old(Abs()), c, id, version, doc).out
    {
      ghost var st := Abs();
      AbsKeys();
      if id in rooms { AbsAt(id); }
      hide Spec.Inv, Shape, Flat, Abs, Spec.Keyed, Steps.Settle, Steps.StartMerge;
      Spec.InvKeyed(st);
      MatchSync.SyncKeeps(st, c, id, version, doc);
      if doc.Undecodable? { return false, []; }
      if id !in rooms || rooms[id].host.conn != c || rooms[id].version != version { return false, []; }
      if !doc.complete { return false, []; }
      ok := true;
      out := Settle(id, doc, st);
      MatchSync.SettleKeeps(st, id, doc);
      if |out| == 0 {
        out := StartMerge(id, Steps.Settle(st, id, doc).state);
      }
    }
  }
}
