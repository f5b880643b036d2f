/** The values the asynchronous matchmaker works on (ctr_async.go): connections, searches,
    rooms, notices, and the seat arithmetic over them. */
module MatchTypes {

  const JOIN_LOBBY: nat := 2001
  const CREATE_LOBBY: nat := 2005
  const UPDATE_LOBBY: nat := 2006
  const MERGE_LOBBY: nat := 2008

  /** The numbers the game knows the notices by. */
  lemma EventNumbers()
    ensures JOIN_LOBBY == 2001 && CREATE_LOBBY == 2005 && UPDATE_LOBBY == 2006 && MERGE_LOBBY == 2008
  {
  }

  const JOINED: int := 2
  const TIMED_OUT: int := 3

  /** A lobby connection. The account is set once, at authentication, and never changes. */
  datatype Conn = Conn(n: nat, pid: nat)

  /** A search is immutable; trimming a party makes a new one. Account 0 is "nobody". */
  datatype Search = Search(conn: Conn, id: nat, members: seq<nat>, min: nat, max: nat, filter: string, seats: nat)

  /** A room. `open` and `states` are the parts of the host document that decisions read;
      `source` and `target` name the partner room of a pending merge, 0 for none. */
  datatype Room = Room(
    id: nat, version: nat, host: Search, players: seq<Search>, open: bool, states: map<nat, int>,
    capacity: int, notified: set<Conn>, source: nat, target: nat)
  {
    function Status(pid: nat): int {
      if pid in states then states[pid] else 0
    }

    /** The host itself can never be marked as failed. */
    predicate Failed(pid: nat) {
      pid != host.conn.pid && Status(pid) == TIMED_OUT
    }
  }

  /** What the server pushes: who gets it, the event, its ids, and the accounts its backend
      document lists as expected. */
  datatype Notice = Notice(conn: Conn, event: nat, ids: seq<nat>, expected: set<nat>)

  /** `rooms` is the live table. `gone` keeps rooms that left the table, because a pending
      merge may still point at one of them. `ids` is the shared id counter. */
  datatype State = State(waiting: seq<Search>, rooms: map<nat, Room>, gone: map<nat, Room>, ids: nat)

  /** A document sent by a host; `complete` says that every required key is present. */
  datatype HostDoc = Undecodable | HostDoc(complete: bool, open: bool, states: map<nat, int>)

  // ---------- sequences ----------

  function Select<T>(q: seq<T>, keep: T -> bool): seq<T> {
    if q == [] then []
    else Select(q[..|q|-1], keep) + if keep(q[|q|-1]) then [q[|q|-1]] else []
  }

  lemma {:induction false} SelectMember<T>(q: seq<T>, keep: T -> bool, x: T)
    ensures x in Select(q, keep) <==> x in q && keep(x)
  {
    if q != [] {
      SelectMember(q[..|q|-1], keep, x);
      assert q == q[..|q|-1] + [q[|q|-1]];
    }
  }

  /** Index of the first hit, |q| when there is none. */
  function First<T>(q: seq<T>, hit: T -> bool): (i: nat)
    ensures i <= |q|
    ensures i < |q| ==> hit(q[i])
    ensures forall k :: 0 <= k < i ==> !hit(q[k])
  {
    if q == [] then 0 else if hit(q[0]) then 0 else
      var i := First(q[1..], hit);
      assert forall k :: 1 <= k < 1 + i ==> q[k] == q[1..][k-1];
      1 + i
  }

  function Without<T>(q: seq<T>, i: nat): seq<T>
    requires i < |q|
  {
    q[..i] + q[i+1..]
  }

  function DropFirst<T>(q: seq<T>, hit: T -> bool): seq<T> {
    var i := First(q, hit);
    if i < |q| then Without(q, i) else q
  }

  function LedBy(pid: nat): Search -> bool { (p: Search) => p.conn.pid == pid }
  function NotLedBy(pid: nat): Search -> bool { (p: Search) => p.conn.pid != pid }
  function OfConn(c: Conn): Search -> bool { (p: Search) => p.conn == c }
  function NotOfConn(c: Conn): Search -> bool { (p: Search) => p.conn != c }
  function IsRequest(c: Conn, id: nat): Search -> bool { (p: Search) => p.conn == c && p.id == id }
  function NotIn(g: seq<Search>): Search -> bool { (p: Search) => p !in g }

  // ---------- leaders ----------

  function Pids(q: seq<Search>): set<nat> { set p | p in q :: p.conn.pid }
  function Conns(q: seq<Search>): set<Conn> { set p | p in q :: p.conn }

  ghost predicate Distinct(q: seq<Search>) {
    forall i, j :: 0 <= i < j < |q| ==> q[i].conn.pid != q[j].conn.pid
  }

  /** q' holds searches led by accounts of q, and repeats none if q repeats none. */
  ghost predicate Thins(q: seq<Search>, q': seq<Search>) {
    Pids(q') <= Pids(q) && (Distinct(q) ==> Distinct(q'))
  }

  lemma PidsAppend(q: seq<Search>, p: Search)
    ensures Pids(q + [p]) == Pids(q) + {p.conn.pid}
    ensures Distinct(q + [p]) <==> Distinct(q) && p.conn.pid !in Pids(q)
  {
    assert forall x :: x in q + [p] <==> x in q || x == p;
    if Distinct(q + [p]) {
      assert forall i, j :: 0 <= i < j < |q| ==> (q + [p])[i] == q[i] && (q + [p])[j] == q[j];
      assert forall i :: 0 <= i < |q| ==> (q + [p])[i].conn.pid != (q + [p])[|q|].conn.pid;
    }
  }

  lemma PidsConcat(a: seq<Search>, b: seq<Search>)
    ensures Pids(a + b) == Pids(a) + Pids(b)
    ensures Distinct(a) && Distinct(b) && Pids(a) !! Pids(b) ==> Distinct(a + b)
  {
    assert forall x :: x in a + b <==> x in a || x in b;
    if Distinct(a) && Distinct(b) && Pids(a) !! Pids(b) {
      forall i, j | 0 <= i < j < |a + b| ensures (a + b)[i].conn.pid != (a + b)[j].conn.pid {
        if i < |a| <= j {
          assert a[i].conn.pid in Pids(a) && b[j - |a|].conn.pid in Pids(b);
        }
      }
    }
  }

  lemma {:induction false} SelectThins(q: seq<Search>, keep: Search -> bool)
    ensures Thins(q, Select(q, keep))
    ensures forall p :: p in Select(q, keep) <==> p in q && keep(p)
  {
    forall p ensures p in Select(q, keep) <==> p in q && keep(p) { SelectMember(q, keep, p); }
    if q != [] {
      var q0, p := q[..|q|-1], q[|q|-1];
      SelectThins(q0, keep);
      assert q == q0 + [p];
      PidsAppend(q0, p);
      PidsAppend(Select(q0, keep), p);
      assert Select(q0, keep) + [] == Select(q0, keep);
    }
  }

  lemma DropFirstThins(q: seq<Search>, hit: Search -> bool)
    ensures Thins(q, DropFirst(q, hit))
    ensures forall p :: p in DropFirst(q, hit) ==> p in q
    ensures forall p :: p in q && !hit(p) ==> p in DropFirst(q, hit)
  {
    var i := First(q, hit);
    if i < |q| {
      var w := Without(q, i);
      assert forall k :: 0 <= k < |w| ==> w[k] == if k < i then q[k] else q[k+1];
      forall p | p in q && !hit(p) ensures p in w {
        var k :| 0 <= k < |q| && q[k] == p;
        assert k != i;
        assert w[if k < i then k else k - 1] == p;
      }
    }
  }

  // ---------- seats ----------

  /** How many of `ms` the room does not count as failed. */
  function Standing(r: Room, ms: seq<nat>): (n: nat)
    ensures n <= |ms|
  {
    if ms == [] then 0
    else Standing(r, ms[..|ms|-1]) + if r.Failed(ms[|ms|-1]) then 0 else 1
  }

  function Taken(r: Room, q: seq<Search>): nat {
    if q == [] then 0 else Taken(r, q[..|q|-1]) + Standing(r, q[|q|-1].members)
  }

  function Joined(r: Room, ms: seq<nat>): nat {
    if ms == [] then 0
    else Joined(r, ms[..|ms|-1]) + if r.Status(ms[|ms|-1]) == JOINED then 1 else 0
  }

  function JoinedIn(r: Room, q: seq<Search>): nat {
    if q == [] then 0 else JoinedIn(r, q[..|q|-1]) + Joined(r, q[|q|-1].members)
  }

  /** Seats the searches ask for, whatever the host reports about their members. */
  function SeatSum(q: seq<Search>): nat {
    if q == [] then 0 else SeatSum(q[..|q|-1]) + |q[|q|-1].members|
  }

  /** No seated member is marked as failed. */
  ghost predicate NoneFailed(r: Room) {
    forall p, m :: p in r.players && m in p.members ==> !r.Failed(m)
  }

  lemma {:induction false} StandingAll(r: Room, ms: seq<nat>)
    requires forall m :: m in ms ==> !r.Failed(m)
    ensures Standing(r, ms) == |ms|
  {
    if ms != [] { StandingAll(r, ms[..|ms|-1]); }
  }

  lemma {:induction false} TakenBound(r: Room, q: seq<Search>)
    ensures Taken(r, q) <= SeatSum(q)
    ensures (forall p, m :: p in q && m in p.members ==> !r.Failed(m)) ==> Taken(r, q) == SeatSum(q)
  {
    if q != [] {
      TakenBound(r, q[..|q|-1]);
      if forall p, m :: p in q && m in p.members ==> !r.Failed(m) {
        StandingAll(r, q[|q|-1].members);
      }
    }
  }

  lemma SeatSumAppend(q: seq<Search>, p: Search)
    ensures SeatSum(q + [p]) == SeatSum(q) + |p.members|
  {
    assert (q + [p])[..|q|] == q;
  }

  lemma {:induction false} SeatSumConcat(a: seq<Search>, b: seq<Search>)
    ensures SeatSum(a + b) == SeatSum(a) + SeatSum(b)
  {
    if b == [] {
      assert a + b == a;
    } else {
      SeatSumConcat(a, b[..|b|-1]);
      assert (a + b)[..|a + b|-1] == a + b[..|b|-1];
    }
  }

  lemma SeatSumWithout(q: seq<Search>, i: nat)
    requires i < |q|
    ensures SeatSum(Without(q, i)) + |q[i].members| == SeatSum(q)
  {
    SeatSumConcat(q[..i], q[i+1..]);
    SeatSumConcat(q[..i+1], q[i+1..]);
    assert q == q[..i+1] + q[i+1..];
    assert q[..i+1] == q[..i] + [q[i]];
    SeatSumAppend(q[..i], q[i]);
  }

  lemma DropFirstSeats(q: seq<Search>, hit: Search -> bool)
    ensures SeatSum(DropFirst(q, hit)) <= SeatSum(q)
  {
    var i := First(q, hit);
    if i < |q| { SeatSumWithout(q, i); }
  }
}
