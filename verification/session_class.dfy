/** The session directory as the server keeps it: one map of session objects, changed in place
    under one lock (matchmaking.go). Each method is proved equal to its rule. */
module SessionDirectory {
  import opened Common
  import opened SessionRules

  class MmSession {
    const id: nat
    const context: string
    var owner: nat
    var account: nat
    var orphaned: int
    var info: Info
    var players: nat
    var reserved: bool

    constructor (id: nat, context: string, owner: nat, account: nat, info: Info, players: nat, reserved: bool)
      ensures Value() == Session(id, context, owner, account, 0, info, players, reserved)
    {
      this.id, this.context, this.owner, this.account := id, context, owner, account;
      this.orphaned, this.info, this.players, this.reserved := 0, info, players, reserved;
    }

    function Value(): Session
      reads this
    {
      Session(id, context, owner, account, orphaned, info, players, reserved)
    }
  }

  class Directory {
    var sessions: map<nat, MmSession>

    constructor ()
      ensures Valid() && Abs() == map[]
    {
      sessions := map[];
    }

    ghost function Abs(): Table
      reads this, sessions.Values
    {
      map k | k in sessions :: sessions[k].Value()
    }

    /** Sessions are stored under their own ids, so no two ids share an object. */
    ghost predicate Valid()
      reads this, sessions.Values
    {
      forall k :: k in sessions ==> sessions[k].id == k
    }

    method RequestSessionId(n: nat, pid: nat, context: string, id: nat)
      requires Valid()
      modifies this
      ensures Valid() && Abs() == Reserve(old(Abs()), n, pid, context, id)
    {
      WithdrawReservations(n, pid, context);
      Put(id, context, n, pid, NO_INFO, 0, true);
    }

    method WithdrawReservations(n: nat, pid: nat, context: string)
      requires Valid()
      modifies this
      ensures Valid() && Abs() == Unsuperseded(old(Abs()), n, pid, context)
    {
      ghost var all := sessions;
      var left := sessions.Keys;
      while left != {}
        invariant left <= all.Keys
        invariant sessions == map k | k in all && (k in left || !Superseded(all[k].Value(), n, pid, context)) :: all[k]
        decreases |left|
      {
        var k :| k in left;
        left := left - {k};
        if Superseded(sessions[k].Value(), n, pid, context) { sessions := sessions - {k}; }
      }
    }

    method Put(id: nat, context: string, n: nat, pid: nat, info: Info, players: nat, reserved: bool)
      requires Valid()
      modifies this
      ensures Valid() && Abs() == old(Abs())[id := Session(id, context, n, pid, 0, info, players, reserved)]
    {
      var s := new MmSession(id, context, n, pid, info, players, reserved);
      sessions := sessions[id := s];
    }

    /** A host that makes a game again replaces the ones it had. */
    method CreateSession(n: nat, pid: nat, context: string, id: nat, info: Info)
      requires Valid()
      modifies this
      ensures Valid() && Abs() == Create(old(Abs()), n, pid, context, id, info)
    {
      if pid != 0 { WithdrawGames(pid, context); }
      assert pid == 0 ==> Unreplaced(Abs(), pid, context) == Abs();
      Put(id, context, n, pid, info, 1, false);
    }

    method WithdrawGames(pid: nat, context: string)
      requires Valid()
      modifies this
      ensures Valid() && Abs() == Unreplaced(old(Abs()), pid, context)
    {
      ghost var all := sessions;
      var left := sessions.Keys;
      while left != {}
        invariant left <= all.Keys
        invariant sessions == map k | k in all && (k in left || !Replaced(all[k].Value(), pid, context)) :: all[k]
        decreases |left|
      {
        var k :| k in left;
        left := left - {k};
        if Replaced(sessions[k].Value(), pid, context) { sessions := sessions - {k}; }
      }
    }

    /** `ok` is the reply: an update of a game that is not the caller's fails. */
    method UpdateSession(n: nat, pid: nat, context: string, id: nat, info: Info, publish: bool) returns (ok: bool)
      requires Valid()
      modifies sessions.Values
      ensures Valid() && Abs() == Update(old(Abs()), n, pid, context, id, info, publish)
      ensures ok <==> Allowed(old(Abs()), n, pid, context, id)
    {
      ok := id in sessions && sessions[id].context == context && Owns(n, pid, sessions[id].Value());
      if ok {
        var s := sessions[id];
        s.owner, s.account, s.info := n, pid, info;
        if publish { s.reserved, s.players := false, 1; }
      }
    }

    method UpdatePlayers(n: nat, pid: nat, context: string, id: nat, players: nat, info: Option<Info>)
      requires Valid()
      modifies sessions.Values
      ensures Valid() && Abs() == Players(old(Abs()), n, pid, context, id, players, info)
    {
      if id in sessions && sessions[id].context == context && Owns(n, pid, sessions[id].Value()) {
        var s := sessions[id];
        s.owner, s.account, s.players := n, pid, players;
        if info.Some? { s.info := info.value; }
      }
    }

    method DeleteSession(n: nat, pid: nat, context: string, id: nat)
      requires Valid()
      modifies this
      ensures Valid() && Abs() == Delete(old(Abs()), n, pid, context, id)
    {
      if id in sessions && sessions[id].context == context && Owns(n, pid, sessions[id].Value()) {
        sessions := sessions - {id};
      }
    }

    method DropSessionsOf(n: nat, now: int)
      requires Valid()
      modifies this, sessions.Values
      ensures Valid() && Abs() == Drop(old(Abs()), n, now)
    {
      hide *;
      ghost var all := sessions;
      ghost var was := Abs();
      var left := sessions.Keys;
      AbsKeys();
      DroppingFirst(was, n, now);
      while left != {}
        invariant Valid() && left <= Abs().Keys && Abs().Keys == sessions.Keys
        invariant forall k :: k in sessions ==> k in all && sessions[k] == all[k]
        invariant Abs() == Dropping(was, left, n, now)
        decreases |left|
      {
        var k :| k in left;
        DroppingStep(was, left, k, n, now);
        left := left - {k};
        Detach(k, n, now);
        AbsKeys();
      }
      DroppingLast(was, n, now);
    }

    lemma AbsKeys()
      ensures Abs().Keys == sessions.Keys
    {
    }

    /** What a closed connection means for one session. */
    method Detach(k: nat, n: nat, now: int)
      requires Valid() && k in sessions
      modifies this, sessions[k]
      ensures Valid() && Abs() == Detached(old(Abs()), k, n, now)
      ensures forall j :: j in sessions ==> j in old(sessions) && sessions[j] == old(sessions)[j]
    {
      var s := sessions[k];
      if s.owner != n { return; }
      if s.account == 0 {
        sessions := sessions - {k};
        return;
      }
      s.owner, s.orphaned := 0, now;
    }

    method ReapSessionsOnce(now: int)
      requires Valid()
      modifies this
      ensures Valid() && Abs() == Reap(old(Abs()), now)
    {
      hide Expired;
      ghost var all := sessions;
      var left := sessions.Keys;
      while left != {}
        invariant left <= all.Keys
        invariant sessions == map k | k in all && (k in left || !Expired(all[k].Value(), now)) :: all[k]
        decreases |left|
      {
        var k :| k in left;
        left := left - {k};
        if Expired(sessions[k].Value(), now) { sessions := sessions - {k}; }
      }
    }

    /** The sessions a client may be shown. */
    ghost function Shown(n: nat, pid: nat, context: string): set<nat>
      reads this, sessions.Values
    {
      set k | k in sessions && Findable(sessions[k].Value(), n, pid, context)
    }

    /** The games of others, each once. */
    method Collect(n: nat, pid: nat, context: string) returns (found: seq<nat>)
      requires Valid()
      ensures forall i, j :: 0 <= i < j < |found| ==> found[i] != found[j]
      ensures forall k :: k in found <==> k in Shown(n, pid, context)
    {
      found := [];
      var left := sessions.Keys;
      while left != {}
        invariant left <= sessions.Keys
        invariant forall k :: k in found <==> k in sessions && k !in left && Findable(sessions[k].Value(), n, pid, context)
        invariant forall i, j :: 0 <= i < j < |found| ==> found[i] != found[j]
        decreases |left|
      {
        var k :| k in left;
        left := left - {k};
        if Findable(sessions[k].Value(), n, pid, context) { found := found + [k]; }
      }
    }

    /** One page of the games of others: only games that may be shown, none twice, as many as the
        page and the start leave room for, at most 50. */
    method FindSessions(n: nat, pid: nat, context: string, start: nat, limit: nat) returns (page: seq<nat>)
      requires Valid()
      ensures forall i :: 0 <= i < |page| ==> page[i] in Shown(n, pid, context)
      ensures forall i, j :: 0 <= i < j < |page| ==> page[i] != page[j]
      ensures |page| == PageSize(|Shown(n, pid, context)|, start, limit)
    {
      hide Shown;
      var found := Collect(n, pid, context);
      Distinct(found, Shown(n, pid, context));
      var maxr := if limit == 0 || limit > 50 then 50 else limit;
      page := if start < |found| then found[start..] else [];
      if |page| > maxr { page := page[..maxr]; }
      forall i | 0 <= i < |page| ensures page[i] in Shown(n, pid, context) { assert page[i] in found; }
    }

    /** The games the asked-for friends host, when nobody else comes in between. */
    method FriendSessions(ids: seq<nat>, online: map<nat, nat>, me: nat, context: string) returns (hits: seq<Hit>)
      requires Valid()
      ensures Answers(Looks(Abs(), online, ids), me, context, hits)
    {
      hits := [];
      var at := 0;
      while at < |ids|
        invariant at <= |ids|
        invariant Answers(Looks(Abs(), online, ids[..at]), me, context, hits)
      {
        var before := hits;
        hits := OneFriend(ids[at], online, me, context, before);
        LooksNext(Abs(), online, ids, at);
        at := at + 1;
      }
      assert ids[..at] == ids;
    }

    /** The lookup of one id, under the lock. */
    method OneFriend(id: nat, online: map<nat, nat>, me: nat, context: string, before: seq<Hit>) returns (hits: seq<Hit>)
      requires Valid() && EachOnce(before)
      ensures Appends(Look(Abs(), online, id), me, context, before, hits)
    {
      ghost var l := Look(Abs(), online, id);
      var pid := Resolve(online, id);
      hits := before;
      var left := sessions.Keys;
      while left != {}
        invariant left <= sessions.Keys && before <= hits && EachOnce(hits)
        invariant forall i :: |before| <= i < |hits| ==> hits[i].friend == id && Shows(l, me, context, hits[i].session)
        invariant forall k :: k in sessions && k !in left && Hosts(sessions[k].Value(), pid, me, context) ==> Listed(hits, k)
        decreases |left|
      {
        var k :| k in left;
        left := left - {k};
        ghost var was := hits;
        if Hosts(sessions[k].Value(), pid, me, context) && !Listed(hits, k) {
          hits := hits + [Hit(id, sessions[k].Value())];
          assert hits[|hits|-1].session.id == k;
        }
        ListedMore(was, hits);
      }
    }
  }

  function Looks(t: Table, online: map<nat, nat>, ids: seq<nat>): seq<Look> {
    seq(|ids|, i requires 0 <= i < |ids| => Look(t, online, ids[i]))
  }

  lemma LooksNext(t: Table, online: map<nat, nat>, ids: seq<nat>, at: nat)
    requires at < |ids|
    ensures Looks(t, online, ids[..at+1]) == Looks(t, online, ids[..at]) + [Look(t, online, ids[at])]
    ensures var looks := Looks(t, online, ids[..at+1]);
      looks[..|looks|-1] == Looks(t, online, ids[..at]) && looks[|looks|-1] == Look(t, online, ids[at])
  {
    assert ids[..at+1] == ids[..at] + [ids[at]];
  }

  function Detached(t: Table, k: nat, n: nat, now: int): Table
    requires k in t
  {
    if t[k].owner == n && t[k].account == 0 then t - {k} else t[k := Orphan(t[k], n, now)]
  }

  /** `Drop` while the sessions in `left` are still to be looked at. */
  function Dropping(t: Table, left: set<nat>, n: nat, now: int): Table {
    map k | k in t && (k in left || !(t[k].owner == n && t[k].account == 0)) ::
      if k in left then t[k] else Orphan(t[k], n, now)
  }

  lemma DroppingFirst(t: Table, n: nat, now: int)
    ensures Dropping(t, t.Keys, n, now) == t
  {
  }

  lemma DroppingStep(t: Table, left: set<nat>, k: nat, n: nat, now: int)
    requires k in left && k in t
    ensures k in Dropping(t, left, n, now)
    ensures Dropping(t, left - {k}, n, now) == Detached(Dropping(t, left, n, now), k, n, now)
    ensures left <= Dropping(t, left, n, now).Keys ==> left - {k} <= Dropping(t, left - {k}, n, now).Keys
  {
  }

  lemma DroppingLast(t: Table, n: nat, now: int)
    ensures Dropping(t, {}, n, now) == Drop(t, n, now)
  {
  }

  function PageSize(all: nat, start: nat, limit: nat): nat {
    var room := if limit == 0 || limit > 50 then 50 else limit;
    var rest := if start < all then all - start else 0;
    if rest < room then rest else room
  }

  lemma {:induction false} Distinct(s: seq<nat>, shown: set<nat>)
    requires forall i, j :: 0 <= i < j < |s| ==> s[i] != s[j]
    requires forall k :: k in s <==> k in shown
    ensures |s| == |shown|
  {
    if s != [] {
      var front := s[..|s|-1];
      var last := s[|s|-1];
      assert s == front + [last];
      assert last !in front;
      Distinct(front, shown - {last});
    } else {
      assert shown == {} by { assert forall k :: k in shown ==> k in s; }
    }
  }
}
