/** A room as the server keeps it: an object edited in place by loops, each proved to do exactly
    what its function in MatchSteps says. */
module MatchRoom {
  import opened Common
  import opened MatchTypes
  import Steps = MatchSteps

  class CtrRoom {
    const id: nat
    var version: nat
    var host: Search
    var players: seq<Search>
    var open: bool
    var states: map<nat, int>
    var capacity: int
    var notified: set<Conn>
    var mergeSource: CtrRoom?
    var mergeTarget: nat

    constructor (r: Room)
      ensures id == r.id && mergeSource == null && Value() == r.(source := 0)
    {
      id, version, host, players, open, states := r.id, r.version, r.host, r.players, r.open, r.states;
      capacity, notified, mergeSource, mergeTarget := r.capacity, r.notified, null, r.target;
    }

    ghost function Value(): Room
      reads this
    {
      Room(id, version, host, players, open, states, capacity, notified, if mergeSource == null then 0 else mergeSource.id, mergeTarget)
    }

    function Status(pid: nat): int
      reads this
    {
      if pid in states then states[pid] else 0
    }

    predicate Failed(pid: nat)
      reads this
    {
      pid != host.conn.pid && Status(pid) == TIMED_OUT
    }

    /** Counts people, not searches; a pending merge's source is counted too. The recursion
        ends because a source has no source of its own. */
    method Occupancy() returns (n: nat)
      requires mergeSource != null ==> mergeSource.mergeSource == null
      ensures n == Steps.OwnSeats(Value()) + if mergeSource == null then 0 else Steps.OwnSeats(mergeSource.Value())
      decreases if mergeSource == null then 0 else 1
    {
      n := 0;
      for i := 0 to |players|
        invariant n == Taken(Value(), players[..i])
      {
        var standing := 0;
        var members := players[i].members;
        for j := 0 to |members|
          invariant standing == Standing(Value(), members[..j])
          invariant n == Taken(Value(), players[..i])
        {
          assert members[..j+1][..j] == members[..j];
          if !Failed(members[j]) { standing := standing + 1; }
        }
        assert members[..|members|] == members;
        assert players[..i+1][..i] == players[..i];
        n := n + standing;
      }
      assert players[..|players|] == players;
      if mergeSource != null {
        var m := mergeSource.Occupancy();
        n := n + m;
      }
    }

    /** Takes the first search of a connection out of the room; the told list keeps it. */
    method Leave(c: Conn)
      modifies this`players
      ensures Value() == old(Value()).(players := DropFirst(old(players), OfConn(c)))
    {
      var i := 0;
      while i < |players| && players[i].conn != c
        invariant i <= |players|
        invariant forall k :: 0 <= k < i ==> players[k].conn != c
      {
        i := i + 1;
      }
      FirstIs(players, OfConn(c), i);
      if i < |players| { players := players[..i] + players[i+1..]; }
    }

    /** Whether the host's document reports a member of these searches as timed out. */
    method TimedOutAmong(q: seq<Search>) returns (yes: bool)
      ensures yes <==> exists p, m :: p in q && m in p.members && Value().Status(m) == TIMED_OUT
    {
      yes := false;
      for i := 0 to |q|
        invariant yes <==> exists p, m :: p in q[..i] && m in p.members && Value().Status(m) == TIMED_OUT
      {
        ghost var before := yes;
        assert q[..i+1] == q[..i] + [q[i]];
        var ms := q[i].members;
        for j := 0 to |ms|
          invariant yes <==> before || exists m :: m in ms[..j] && Value().Status(m) == TIMED_OUT
        {
          assert ms[..j+1] == ms[..j] + [ms[j]];
          assert forall m :: m in ms[..j+1] <==> m in ms[..j] || m == ms[j];
          assert Status(ms[j]) == Value().Status(ms[j]);
          if Status(ms[j]) == TIMED_OUT { yes := true; }
        }
        assert ms[..|ms|] == ms;
      }
      assert q[..|q|] == q;
    }

    /** Takes over another room's searches, all of them told. */
    method Absorb(src: CtrRoom)
      requires src != this
      modifies this
      ensures Value() == Steps.Absorbed(old(Value()), src.Value()) && mergeSource == null
    {
      mergeSource := null;
      capacity := Min(capacity, src.capacity);
      players := players + src.players;
      ghost var was := Value();
      for i := 0 to |src.players|
        invariant notified == was.notified + Conns(src.players[..i])
        invariant Value() == was.(notified := notified) && mergeSource == null
      {
        ConnsSnoc(src.players, i);
        notified := notified + {src.players[i].conn};
      }
      assert src.players[..|src.players|] == src.players;
    }

    method Surviving(ms: seq<nat>) returns (members: seq<nat>)
      ensures members == Steps.StandingMembers(Value(), ms)
    {
      members := [];
      for j := 0 to |ms|
        invariant members == Steps.StandingMembers(Value(), ms[..j])
      {
        assert ms[..j+1][..j] == ms[..j];
        if !Failed(ms[j]) { members := members + [ms[j]]; }
      }
      assert ms[..|ms|] == ms;
    }

    /** syncDoc's rejection loop: failed members lose their seats, empty searches go. */
    method Reject()
      modifies this`players, this`notified, this`host
      ensures Value() == Steps.Reject(old(Value())) && mergeSource == old(mergeSource)
    {
      ghost var r := Value();
      var was := host;
      var kept := [];
      RejectNone(r);
      hide Steps.StandingMembers, Steps.Trim, Steps.TrimAll, Steps.Rejected;
      for i := 0 to |players|
        invariant Value() == r.(host := host, notified := notified) && host.conn == was.conn
        invariant kept == Steps.TrimAll(r, players[..i])
        invariant notified == r.notified - Steps.Rejected(r, players[..i])
        invariant host == if was in players[..i] && Steps.Trim(r, was).members != [] then Steps.Trim(r, was) else was
      {
        var p := players[i];
        assert players[..i+1] == players[..i] + [p];
        var members := Surviving(p.members);
        TrimFrom(Value(), r, p);
        RejectSnoc(r, players[..i], p);
        if members == [] {
          notified := notified - {p.conn};
          continue;
        }
        var copy := p.(members := members, seats := |members|);
        if p == was { host := copy; }
        kept := kept + [copy];
      }
      assert players[..|players|] == players;
      players := kept;
    }

    /** syncDoc's release loop: every seated search not told yet is told to join. */
    method Release(expected: set<nat>) returns (out: seq<Notice>)
      modifies this`notified
      ensures Value() == old(Value()).(notified := old(notified) + Conns(players)) && mergeSource == old(mergeSource)
      ensures out == Steps.JoinNotices(Steps.Unreleased(players, old(notified)), id, expected)
    {
      ghost var told := notified;
      ghost var q := [];
      out := [];
      for i := 0 to |players|
        invariant notified == told + Conns(players[..i])
        invariant q == Steps.Unreleased(players[..i], told) && |out| == |q|
        invariant forall k :: 0 <= k < |q| ==> out[k] == Notice(q[k].conn, JOIN_LOBBY, [q[k].id, id], expected)
      {
        var p := players[i];
        assert players[..i+1][..i] == players[..i];
        ConnsSnoc(players, i);
        if p.conn !in notified {
          notified := notified + {p.conn};
          q, out := q + [p], out + [Notice(p.conn, JOIN_LOBBY, [p.id, id], expected)];
        }
      }
      assert players[..|players|] == players;
    }

    /** syncDoc's backfill loop over the queue. */
    method FillFrom(q: seq<Search>) returns (rest: seq<Search>, added: nat)
      requires mergeSource == null
      modifies this
      ensures mergeSource == null && Value() == Steps.FillFrom(old(Value()), q).room
      ensures rest == Steps.FillFrom(old(Value()), q).rest && added == |Steps.FillFrom(old(Value()), q).added|
    {
      ghost var r := Value();
      rest, added := [], 0;
      for i := 0 to |q|
        invariant mergeSource == null && Value() == Steps.FillFrom(r, q[..i]).room
        invariant rest == Steps.FillFrom(r, q[..i]).rest && added == |Steps.FillFrom(r, q[..i]).added|
      {
        var p := q[i];
        assert q[..i+1][..i] == q[..i];
        var occupied := Occupancy();
        if p.filter != host.filter || occupied + p.seats > Min(capacity, p.max) {
          rest := rest + [p];
        } else {
          TakeSeat(p);
          added := added + 1;
        }
      }
      assert q[..|q|] == q;
    }

    /** Earlier failures of these members are forgotten. */
    method Forgive(ms: seq<nat>)
      modifies this`states
      ensures Value() == old(Value()).(states := old(states) - set m | m in ms)
    {
      ghost var was := states;
      for j := 0 to |ms|
        invariant states == was - set m | m in ms[..j]
      {
        PrefixSet(ms, j);
        states := states - {ms[j]};
      }
      assert ms[..|ms|] == ms;
    }

    /** Reserves seats for the searches of `src`. */
    method Reserve(src: CtrRoom)
      requires src != this
      modifies this
      ensures Value() == Steps.Reserved(old(Value()), src.Value()) && mergeSource == src
    {
      mergeSource := src;
      ghost var was := states;
      hide Steps.AllMembers;
      NoMembers();
      for i := 0 to |src.players|
        invariant states == was - Steps.AllMembers(src.players[..i])
        invariant Value() == old(Value()).(source := src.id, states := states) && mergeSource == src
      {
        MembersSnoc(src.players, i);
        Forgive(src.players[i].members);
      }
      assert src.players[..|src.players|] == src.players;
      version := version + 1;
    }

    /** Gives `s` its seats; an earlier failure of one of its members is forgotten. */
    method TakeSeat(s: Search)
      modifies this
      ensures Value() == Steps.Seat(old(Value()), s) && mergeSource == old(mergeSource)
    {
      Forgive(s.members);
      assert states == old(states) - Steps.MemberSet(s);
      players := players + [s];
      capacity := Min(capacity, s.max);
    }

    /** Takes the first search led by `pid` out of the room. */
    method EvictLeader(pid: nat)
      modifies this`players, this`notified
      ensures Value() == Steps.EvictFrom(old(Value()), pid)
    {
      var i := 0;
      while i < |players| && players[i].conn.pid != pid
        invariant i <= |players|
        invariant forall k :: 0 <= k < i ==> players[k].conn.pid != pid
      {
        i := i + 1;
      }
      FirstIs(players, LedBy(pid), i);
      if i < |players| {
        notified := notified - {players[i].conn};
        players := players[..i] + players[i+1..];
      }
    }

    method Connected() returns (n: nat)
      ensures n == JoinedIn(Value(), players)
    {
      n := 0;
      for i := 0 to |players|
        invariant n == JoinedIn(Value(), players[..i])
      {
        var joined := 0;
        var members := players[i].members;
        for j := 0 to |members|
          invariant joined == Joined(Value(), members[..j])
        {
          assert members[..j+1][..j] == members[..j];
          if Status(members[j]) == JOINED { joined := joined + 1; }
        }
        assert members[..|members|] == members;
        assert players[..i+1][..i] == players[..i];
        n := n + joined;
      }
      assert players[..|players|] == players;
    }

    /** The accounts the backend document expects, a pending source's included. */
    method Expecting() returns (pids: set<nat>)
      ensures pids == set p, m | p in players + (if mergeSource == null then [] else mergeSource.players)
        && m in p.members && !Failed(m) :: m
    {
      var q := players + if mergeSource == null then [] else mergeSource.players;
      pids := {};
      for i := 0 to |q|
        invariant pids == set p, m | p in q[..i] && m in p.members && !Failed(m) :: m
      {
        ghost var before := pids;
        var members := q[i].members;
        for j := 0 to |members|
          invariant pids == before + set m | m in members[..j] && !Failed(m)
        {
          assert members[..j+1] == members[..j] + [members[j]];
          if !Failed(members[j]) { pids := pids + {members[j]}; }
        }
        assert members[..|members|] == members;
        assert q[..i+1] == q[..i] + [q[i]];
      }
      assert q[..|q|] == q;
    }
  }

  lemma ConnsSnoc(q: seq<Search>, i: nat)
    requires i < |q|
    ensures Conns(q[..i+1]) == Conns(q[..i]) + {q[i].conn}
  {
    assert q[..i+1] == q[..i] + [q[i]];
  }

  lemma {:induction false} SameVerdicts(a: Room, b: Room, ms: seq<nat>)
    requires a.states == b.states && a.host.conn == b.host.conn
    ensures Steps.StandingMembers(a, ms) == Steps.StandingMembers(b, ms)
  {
    if ms != [] { SameVerdicts(a, b, ms[..|ms|-1]); }
  }

  lemma PrefixSet(ms: seq<nat>, j: nat)
    requires j < |ms|
    ensures forall m :: m in ms[..j+1] <==> m in ms[..j] || m == ms[j]
  {
    assert ms[..j+1] == ms[..j] + [ms[j]];
  }

  lemma NoMembers()
    ensures Steps.AllMembers([]) == {}
  {
  }

  lemma MembersSnoc(q: seq<Search>, i: nat)
    requires i < |q|
    ensures Steps.AllMembers(q[..i+1]) == Steps.AllMembers(q[..i]) + set m | m in q[i].members
  {
    assert q[..i+1] == q[..i] + [q[i]];
  }

  lemma RejectNone(r: Room)
    ensures Steps.TrimAll(r, []) == [] && Steps.Rejected(r, []) == {}
  {
  }

  lemma RejectSnoc(r: Room, q: seq<Search>, p: Search)
    ensures Steps.TrimAll(r, q + [p]) == Steps.TrimAll(r, q) + if Steps.Trim(r, p).members == [] then [] else [Steps.Trim(r, p)]
    ensures Steps.Rejected(r, q + [p]) == Steps.Rejected(r, q) + if Steps.Trim(r, p).members == [] then {p.conn} else {}
  {
    assert (q + [p])[..|q|] == q;
    assert forall x :: x in q + [p] <==> x in q || x == p;
  }

  lemma TrimFrom(a: Room, r: Room, p: Search)
    requires a.states == r.states && a.host.conn == r.host.conn
    ensures Steps.Trim(r, p) == p.(members := Steps.StandingMembers(a, p.members), seats := |Steps.StandingMembers(a, p.members)|)
  {
    SameVerdicts(a, r, p.members);
  }

  lemma FirstIs<T>(q: seq<T>, hit: T -> bool, i: nat)
    requires i <= |q| && (i < |q| ==> hit(q[i])) && forall k :: 0 <= k < i ==> !hit(q[k])
    ensures First(q, hit) == i
  {
    var f := First(q, hit);
    assert f < |q| ==> hit(q[f]);
    assert i < |q| ==> hit(q[i]);
  }
}
