/** What each request does to each session, field by field, and who sees the result
    (matchmaking.go:70-93, 178-221, 248-380). */
module SessionRequests {
  import opened Common
  import opened SessionRules

  /** The connection is the session's owner, or is logged in as its account. */
  predicate ActsFor(n: nat, pid: nat, s: Session) { s.owner == n || (s.account == pid && pid != 0) }

  /** The request names session `k` in its context and comes from its host. */
  predicate Reaches(st: State, a: Action, k: nat)
    requires Possible(st, a) && (a.DoUpdate? || a.DoPlayers? || a.DoDelete?)
  {
    a.id == k && k in st.table && st.table[k].context == a.context && ActsFor(a.n, st.live[a.n], st.table[k])
  }

  /** What a host's update or count of players makes of its session: the caller takes it over, sets what
      it sent, and leaves the rest. An initialize request also publishes it, with one player. */
  lemma UpdatedSession(st: State, a: Action, k: nat)
    requires Possible(st, a) && (a.DoUpdate? || a.DoPlayers?)
    ensures var u := Step(st, a).table;
      if !Reaches(st, a, k) then k in u <==> k in st.table
      else
        var (s, t) := (st.table[k], u[k]);
        && k in u && t.id == s.id && t.context == s.context && t.orphaned == s.orphaned
        && t.owner == a.n && t.account == st.live[a.n]
        && (a.DoUpdate? ==> t.info == a.info)
        && (a.DoUpdate? && a.publish ==> !t.reserved && t.players == 1)
        && (a.DoUpdate? && !a.publish ==> t.reserved == s.reserved && t.players == s.players)
        && (a.DoPlayers? ==> t.reserved == s.reserved && t.players == a.players)
        && (a.DoPlayers? ==> t.info == if a.infos.Some? then a.infos.value else s.info)
  {
  }

  /** What a new session starts as: a reservation empty and hidden, a created game with its information,
      one player, and visible; both the caller's. */
  lemma NewSession(st: State, a: Action)
    requires Possible(st, a) && (a.DoReserve? || a.DoCreate?)
    ensures var u := Step(st, a).table;
      && a.id in u && u[a.id].id == a.id && u[a.id].context == a.context
      && u[a.id].owner == a.n && u[a.id].account == st.live[a.n] && u[a.id].orphaned == 0
      && (a.DoReserve? ==> u[a.id].reserved && u[a.id].players == 0 && u[a.id].info == Info([], 0, 0, []))
      && (a.DoCreate? ==> !u[a.id].reserved && u[a.id].players == 1 && u[a.id].info == a.info)
  {
  }

  /** No action has any other effect: a session it is not about stays or goes as it is, and goes only if
      its host deletes it, replaces it by creating a game or reserving again, loses the connection
      without an account, or has been gone for more than 120 seconds at a sweep. */
  lemma NothingElse(st: State, a: Action, k: nat)
    requires Inv(st) && Possible(st, a)
    ensures var u := Step(st, a).table;
      && (k in u && k !in st.table ==> (a.DoReserve? || a.DoCreate?) && a.id == k)
      && (k in u && k in st.table && u[k] != st.table[k] ==>
        || ((a.DoUpdate? || a.DoPlayers?) && Reaches(st, a, k))
        || (a.Close? && st.table[k].owner == a.n && u[k] == st.table[k].(owner := 0, orphaned := a.now)))
      && (k !in u && k in st.table <==>
        k in st.table &&
        var s := st.table[k];
        || (a.DoDelete? && Reaches(st, a, k))
        || (a.DoReserve? && s.reserved && a.context == s.context && ActsFor(a.n, st.live[a.n], s))
        || (a.DoCreate? && a.context == s.context && st.live[a.n] == s.account && s.account != 0)
        || (a.Close? && s.owner == a.n && s.account == 0)
        || (a.Sweep? && s.owner == 0 && a.now - s.orphaned > 120_000_000_000))
  {
  }

  /** A closing connection leaves every game of an account behind without an owner, from that moment. */
  lemma ClosedLeavesOrphans(st: State, n: nat, now: int, k: nat)
    requires Inv(st) && n in st.live && k in st.table && st.table[k].owner == n && st.table[k].account != 0
    ensures k in Step(st, Close(n, now)).table && Step(st, Close(n, now)).table[k] == st.table[k].(owner := 0, orphaned := now)
  {
  }

  // ---------- who sees a game ----------

  /** The action makes session `k` a game others may join. */
  predicate Opens(st: State, a: Action, k: nat)
    requires Possible(st, a)
  {
    (a.DoCreate? && a.id == k) || (a.DoUpdate? && a.publish && Reaches(st, a, k))
  }

  /** A game that was just created or published is found, with what its host sent and one player, by
      exactly those clients that search its context and are neither its connection nor logged in as its
      account; and it is listed for a friend exactly if the account asked for is its host's and not the
      asker's own. */
  lemma OpenedIsSeen(st: State, a: Action, k: nat, m: nat, context: string, account: nat)
    requires Inv(st) && Possible(st, a) && Opens(st, a, k) && m in st.live
    ensures var (u, host, me) := (Step(st, a).table, st.live[a.n], st.live[m]);
      && k in u && u[k].info == a.info && u[k].players == 1
      && (Findable(u[k], m, me, context) <==> context == a.context && m != a.n && (me == 0 || me != host))
      && (Hosts(u[k], account, me, context) <==> context == a.context && account == host && account != me)
  {
  }

  /** Which game of a table is shown for a friend id: a published one of the context, under that id's
      account while somebody is online under it with an account, and under the id itself otherwise, as
      while the host reconnects; and never the asker's own. */
  lemma ShownForFriend(l: Look, me: nat, context: string, k: nat)
    requires forall i :: i in l.table ==> l.table[i].id == i
    requires k in l.table
    ensures var s := l.table[k];
      Shows(l, me, context, s) <==>
        && s.context == context && !s.reserved && s.account != me
        && if l.friend in l.online && l.online[l.friend] > 0 then l.online[l.friend] == s.account else l.friend == s.account
    ensures forall s :: Shows(l, me, context, s) ==> s.id in l.table && l.table[s.id] == s
  {
  }

  /** A reservation, from its request to the one that publishes it, whatever others do in between: the
      client that searches finds nothing before and the game after. */
  lemma {:induction false} ReservedThenOpened(st: State, n: nat, context: string, k: nat, run: seq<Action>, info: Info, m: nat)
    requires Inv(st) && Possible(st, DoReserve(n, context, k))
    requires var t := Step(st, DoReserve(n, context, k));
      AllPossible(t, run) && HostIdle(t, run, k) && Possible(Run(t, run), DoUpdate(n, context, k, info, true))
    ensures var t := Run(Step(st, DoReserve(n, context, k)), run);
      var u := Step(t, DoUpdate(n, context, k, info, true));
      && k in t.table && (m in t.live ==> !Findable(t.table[k], m, t.live[m], context))
      && k in u.table && u.table[k].info == info && u.table[k].players == 1
      && (m in u.live && m != n && (u.live[m] == 0 || u.live[m] != u.live[n]) ==> Findable(u.table[k], m, u.live[m], context))
  {
    var a, t := DoReserve(n, context, k), Step(st, DoReserve(n, context, k));
    StepKeepsInv(st, a);
    NewSession(st, a);
    assert n != 0;
    ConnectedStays(t, run, k);
    RunKeepsInv(t, run);
    var v := Run(t, run);
    var open := DoUpdate(n, context, k, info, true);
    hide Run, AllPossible, HostIdle;
    assert Reaches(v, open, k);
    UpdatedSession(v, open, k);
  }
}
