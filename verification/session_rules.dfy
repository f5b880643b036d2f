/** The directory of public games: who owns a session, who may change it, who sees it, and when
    it goes (matchmaking.go). Time is in nanoseconds. */
module SessionRules {
  import opened Common

  const GRACE := 120_000_000_000

  datatype Info = Info(host: Bytes, gameType: nat, maxPlayers: nat, attrs: Bytes)

  /** `owner` is the host's connection, 0 while it has none; `account` its account, 0 if unknown. */
  datatype Session = Session(
    id: nat, context: string, owner: nat, account: nat, orphaned: int, info: Info, players: nat, reserved: bool)

  type Table = map<nat, Session>

  const NO_INFO := Info([], 0, 0, [])

  /** Connection `n`, logged in as `pid`, may act for the session's host. */
  predicate Owns(n: nat, pid: nat, s: Session) {
    s.owner == n || (pid != 0 && s.account == pid)
  }

  // ---------- requests ----------

  predicate Superseded(s: Session, n: nat, pid: nat, context: string) {
    s.reserved && s.context == context && Owns(n, pid, s)
  }

  function Unsuperseded(t: Table, n: nat, pid: nat, context: string): Table {
    map k | k in t && !Superseded(t[k], n, pid, context) :: t[k]
  }

  function Reserve(t: Table, n: nat, pid: nat, context: string, id: nat): Table {
    Unsuperseded(t, n, pid, context)[id := Session(id, context, n, pid, 0, NO_INFO, 0, true)]
  }

  predicate Replaced(s: Session, pid: nat, context: string) {
    pid != 0 && s.account == pid && s.context == context
  }

  function Unreplaced(t: Table, pid: nat, context: string): Table {
    map k | k in t && !Replaced(t[k], pid, context) :: t[k]
  }

  function Create(t: Table, n: nat, pid: nat, context: string, id: nat, info: Info): Table {
    Unreplaced(t, pid, context)[id := Session(id, context, n, pid, 0, info, 1, false)]
  }

  predicate Allowed(t: Table, n: nat, pid: nat, context: string, id: nat) {
    id in t && t[id].context == context && Owns(n, pid, t[id])
  }

  /** Update, or with `publish` initialize: the caller's connection takes the session over. */
  function Update(t: Table, n: nat, pid: nat, context: string, id: nat, info: Info, publish: bool): Table {
    if !Allowed(t, n, pid, context, id) then t
    else
      var s := t[id].(owner := n, account := pid, info := info);
      t[id := if publish then s.(reserved := false, players := 1) else s]
  }

  function Players(t: Table, n: nat, pid: nat, context: string, id: nat, players: nat, info: Option<Info>): Table {
    if !Allowed(t, n, pid, context, id) then t
    else
      var s := t[id].(owner := n, account := pid, players := players);
      t[id := if info.Some? then s.(info := info.value) else s]
  }

  function Delete(t: Table, n: nat, pid: nat, context: string, id: nat): Table {
    if Allowed(t, n, pid, context, id) then t - {id} else t
  }

  // ---------- connections come and go ----------

  function Orphan(s: Session, n: nat, now: int): Session {
    if s.owner == n then s.(owner := 0, orphaned := now) else s
  }

  /** A connection closed: its games wait for their account to come back, or go if they have none. */
  function Drop(t: Table, n: nat, now: int): Table {
    map k | k in t && !(t[k].owner == n && t[k].account == 0) :: Orphan(t[k], n, now)
  }

  predicate Expired(s: Session, now: int) { s.owner == 0 && now - s.orphaned > GRACE }

  function Reap(t: Table, now: int): Table { map k | k in t && !Expired(t[k], now) :: t[k] }

  // ---------- what others see ----------

  predicate Findable(s: Session, n: nat, pid: nat, context: string) {
    !Owns(n, pid, s) && s.context == context && !s.reserved
  }

  /** The account behind a friend id: the one online under it, or the id itself. */
  function Resolve(online: map<nat, nat>, id: nat): nat {
    if id in online && online[id] != 0 then online[id] else id
  }

  predicate Hosts(s: Session, account: nat, me: nat, context: string) {
    account != me && s.account == account && s.context == context && !s.reserved
  }

  // ---------- asking for friends ----------

  /** A game found for a friend id, as it was when it was found. */
  datatype Hit = Hit(friend: nat, session: Session)

  /** One friend id is looked up under the lock; between two of them the table may change. */
  datatype Look = Look(table: Table, online: map<nat, nat>, friend: nat)

  predicate Shows(l: Look, me: nat, context: string, s: Session) {
    s.id in l.table && l.table[s.id] == s && Hosts(s, Resolve(l.online, l.friend), me, context)
  }

  predicate Listed(hits: seq<Hit>, id: nat) { exists i :: 0 <= i < |hits| && hits[i].session.id == id }

  predicate EachOnce(hits: seq<Hit>) { forall i, j :: 0 <= i < j < |hits| ==> hits[i].session.id != hits[j].session.id }

  /** One look adds the games it shows that are not listed yet, in any order. */
  ghost predicate Appends(l: Look, me: nat, context: string, before: seq<Hit>, after: seq<Hit>) {
    && before <= after && EachOnce(after)
    && (forall i :: |before| <= i < |after| ==> after[i].friend == l.friend && Shows(l, me, context, after[i].session))
    && AllListed(l, me, context, after)
  }

  ghost predicate AllListed(l: Look, me: nat, context: string, hits: seq<Hit>) {
    forall k :: k in l.table && Shows(l, me, context, l.table[k]) ==> Listed(hits, l.table[k].id)
  }

  ghost predicate Answers(looks: seq<Look>, me: nat, context: string, hits: seq<Hit>)
    decreases |looks|, 0
  {
    if looks == [] then hits == [] else Extends(looks[..|looks|-1], looks[|looks|-1], me, context, hits)
  }

  ghost predicate Extends(looks: seq<Look>, last: Look, me: nat, context: string, hits: seq<Hit>)
    decreases |looks|, 1
  {
    exists mid :: Answers(looks, me, context, mid) && Appends(last, me, context, mid, hits)
  }

  ghost predicate Found(looks: seq<Look>, me: nat, context: string, h: Hit) {
    exists j :: 0 <= j < |looks| && looks[j].friend == h.friend && Shows(looks[j], me, context, h.session)
  }

  /** Whatever happens to the table between the looks: no game is listed twice; each one was
      published and hosted by the account asked for when that account was looked up; and every
      game that was so at one of the looks is listed. */
  lemma {:induction false} AnswersAreRight(looks: seq<Look>, me: nat, context: string, hits: seq<Hit>)
    requires Answers(looks, me, context, hits)
    ensures EachOnce(hits) && forall i :: 0 <= i < |hits| ==> Found(looks, me, context, hits[i])
    ensures forall j :: 0 <= j < |looks| ==> AllListed(looks[j], me, context, hits)
    decreases |looks|
  {
    if looks != [] {
      var front, last := looks[..|looks|-1], looks[|looks|-1];
      hide Shows, AllListed, EachOnce, Found, Listed;
      assert Extends(front, last, me, context, hits);
      var mid: seq<Hit> :| Answers(front, me, context, mid) && Appends(last, me, context, mid, hits);
      AnswersAreRight(front, me, context, mid);
      hide Answers, Extends;
      forall i | 0 <= i < |hits| ensures Found(looks, me, context, hits[i]) { FoundLater(looks, me, context, mid, hits, i); }
      forall j | 0 <= j < |looks| ensures AllListed(looks[j], me, context, hits) {
        if j < |front| {
          assert looks[j] == front[j];
          AllListedMore(looks[j], me, context, mid, hits);
        }
      }
    }
  }

  lemma FoundLater(looks: seq<Look>, me: nat, context: string, mid: seq<Hit>, hits: seq<Hit>, i: nat)
    requires looks != [] && i < |hits| && Appends(looks[|looks|-1], me, context, mid, hits)
    requires forall k :: 0 <= k < |mid| ==> Found(looks[..|looks|-1], me, context, mid[k])
    ensures Found(looks, me, context, hits[i])
  {
    hide Shows, AllListed, EachOnce;
    if i < |mid| {
      assert hits[i] == mid[i];
      var front := looks[..|looks|-1];
      var j :| 0 <= j < |front| && front[j].friend == mid[i].friend && Shows(front[j], me, context, mid[i].session);
      assert looks[j] == front[j];
    }
  }

  lemma AllListedMore(l: Look, me: nat, context: string, some: seq<Hit>, more: seq<Hit>)
    requires some <= more && AllListed(l, me, context, some)
    ensures AllListed(l, me, context, more)
  {
    ListedMore(some, more);
    hide Shows, Listed;
  }

  lemma ListedMore(some: seq<Hit>, more: seq<Hit>)
    requires some <= more
    ensures forall id :: Listed(some, id) ==> Listed(more, id)
  {
    forall id | Listed(some, id) ensures Listed(more, id) {
      var i :| 0 <= i < |some| && some[i].session.id == id;
      assert more[i].session.id == id;
    }
  }

  // ---------- runs ----------

  /** `live` gives the account of every open connection, 0 until it is identified. */
  datatype State = State(table: Table, live: map<nat, nat>)

  datatype Action =
    | Connect(n: nat)
    | Identify(n: nat, pid: nat)
    | DoReserve(n: nat, context: string, id: nat)
    | DoCreate(n: nat, context: string, id: nat, info: Info)
    | DoUpdate(n: nat, context: string, id: nat, info: Info, publish: bool)
    | DoPlayers(n: nat, context: string, id: nat, players: nat, infos: Option<Info>)
    | DoDelete(n: nat, context: string, id: nat)
    | Close(n: nat, now: int)
    | Sweep(now: int)

  /** Connections are numbered afresh from 1 and identified once, requests come over open ones,
      and a random session id is not one in use. */
  predicate Possible(st: State, a: Action) {
    match a
    case Connect(n) => n != 0 && n !in st.live
    case Identify(n, _) => n in st.live && st.live[n] == 0
    case Sweep(_) => true
    case _ => a.n in st.live && (a.DoReserve? || a.DoCreate? ==> a.id !in st.table)
  }

  function Step(st: State, a: Action): State
    requires Possible(st, a)
  {
    match a
    case Connect(n) => st.(live := st.live[n := 0])
    case Identify(n, pid) => st.(live := st.live[n := pid])
    case DoReserve(n, context, id) => st.(table := Reserve(st.table, n, st.live[n], context, id))
    case DoCreate(n, context, id, info) => st.(table := Create(st.table, n, st.live[n], context, id, info))
    case DoUpdate(n, context, id, info, publish) => st.(table := Update(st.table, n, st.live[n], context, id, info, publish))
    case DoPlayers(n, context, id, players, infos) => st.(table := Players(st.table, n, st.live[n], context, id, players, infos))
    case DoDelete(n, context, id) => st.(table := Delete(st.table, n, st.live[n], context, id))
    case Close(n, now) => State(Drop(st.table, n, now), st.live - {n})
    case Sweep(now) => st.(table := Reap(st.table, now))
  }

  predicate AllPossible(st: State, run: seq<Action>)
    decreases |run|
  {
    run == [] || (Possible(st, run[0]) && AllPossible(Step(st, run[0]), run[1..]))
  }

  function Run(st: State, run: seq<Action>): State
    requires AllPossible(st, run)
    decreases |run|
  {
    if run == [] then st else Run(Step(st, run[0]), run[1..])
  }

  // ---------- the invariant ----------

  /** A session has an open owning connection, of its account if it has one, or waits for a
      known account. */
  predicate Owned(st: State, s: Session) {
    && (s.owner != 0 ==> s.owner in st.live && (s.account == 0 || s.account == st.live[s.owner]))
    && (s.owner == 0 ==> s.account != 0)
  }

  predicate Inv(st: State) {
    0 !in st.live && forall k :: k in st.table ==> st.table[k].id == k && Owned(st, st.table[k])
  }

  lemma StepKeepsInv(st: State, a: Action)
    requires Inv(st) && Possible(st, a)
    ensures Inv(Step(st, a))
  {
    var u := Step(st, a);
    forall k | k in u.table ensures u.table[k].id == k && Owned(u, u.table[k]) {
      if k in st.table { assert Owned(st, st.table[k]); }
    }
  }

  /** Over every run, every session has a live owning connection or waits for a known account. */
  lemma {:induction false} RunKeepsInv(st: State, run: seq<Action>)
    requires Inv(st) && AllPossible(st, run)
    ensures Inv(Run(st, run))
    decreases |run|
  {
    if run != [] {
      StepKeepsInv(st, run[0]);
      RunKeepsInv(Step(st, run[0]), run[1..]);
    }
  }

  // ---------- who changes a session, and when it goes ----------

  /** The action is a request over a connection that may act for the host. */
  predicate ByHost(st: State, a: Action, s: Session)
    requires Possible(st, a)
  {
    !a.Connect? && !a.Identify? && !a.Sweep? && Owns(a.n, st.live[a.n], s)
  }

  /** Nothing anyone else does changes a session; a sweep only ever takes it away. */
  lemma OnlyTheHostChangesIt(st: State, a: Action, k: nat)
    requires Inv(st) && Possible(st, a) && k in st.table && !ByHost(st, a, st.table[k])
    ensures k in Step(st, a).table ==> Step(st, a).table[k] == st.table[k]
    ensures k !in Step(st, a).table ==> a.Sweep? && Expired(st.table[k], a.now)
  {
    if a.Close? { assert st.table[k].owner != a.n; }
  }

  /** Exactly when a session goes. */
  lemma GoneExactlyWhen(st: State, a: Action, k: nat)
    requires Inv(st) && Possible(st, a) && k in st.table
    ensures var s := st.table[k];
      k !in Step(st, a).table <==>
      || (a.DoDelete? && a.id == k && a.context == s.context && Owns(a.n, st.live[a.n], s))
      || (a.DoReserve? && s.reserved && a.context == s.context && Owns(a.n, st.live[a.n], s))
      || (a.DoCreate? && a.context == s.context && st.live[a.n] == s.account != 0)
      || (a.Close? && s.owner == a.n && s.account == 0)
      || (a.Sweep? && s.owner == 0 && a.now - s.orphaned > GRACE)
  {
  }

  /** Until the account comes back, and while no sweep finds the grace period over. */
  predicate Waits(st: State, run: seq<Action>, k: nat)
    requires AllPossible(st, run)
    decreases |run|
  {
    run == [] || k !in st.table ||
    (!ByHost(st, run[0], st.table[k])
      && (run[0].Sweep? ==> run[0].now - st.table[k].orphaned <= GRACE)
      && Waits(Step(st, run[0]), run[1..], k))
  }

  /** A host that lost its connection finds its game as it left it for the whole grace period,
      whatever others do meanwhile. */
  lemma {:induction false} OrphanWaits(st: State, run: seq<Action>, k: nat)
    requires Inv(st) && AllPossible(st, run) && k in st.table && st.table[k].owner == 0
    requires Waits(st, run, k)
    ensures k in Run(st, run).table && Run(st, run).table[k] == st.table[k]
    decreases |run|
  {
    if run != [] {
      StepKeepsInv(st, run[0]);
      OnlyTheHostChangesIt(st, run[0], k);
      OrphanWaits(Step(st, run[0]), run[1..], k);
    }
  }

  /** The host does nothing with the session. */
  predicate HostIdle(st: State, run: seq<Action>, k: nat)
    requires AllPossible(st, run)
    decreases |run|
  {
    run == [] || k !in st.table || (!ByHost(st, run[0], st.table[k]) && HostIdle(Step(st, run[0]), run[1..], k))
  }

  /** A session whose owner is connected is never reaped, at whatever time a sweep comes. */
  lemma {:induction false} ConnectedStays(st: State, run: seq<Action>, k: nat)
    requires Inv(st) && AllPossible(st, run) && k in st.table && st.table[k].owner != 0
    requires HostIdle(st, run, k)
    ensures k in Run(st, run).table && Run(st, run).table[k] == st.table[k]
    decreases |run|
  {
    if run != [] {
      StepKeepsInv(st, run[0]);
      OnlyTheHostChangesIt(st, run[0], k);
      ConnectedStays(Step(st, run[0]), run[1..], k);
    }
  }

  /** Losing the connection, coming back over a new one, losing that: the grace period starts
      afresh, and in between the game keeps what the host last published. */
  lemma ReadoptionRestartsGrace(st: State, n: nat, n': nat, context: string, k: nat, info: Info, lost: int, again: int)
    requires Inv(st) && k in st.table && st.table[k].owner == n && n in st.live && st.table[k].account != 0
    requires n' != n && n' in st.live && st.live[n'] == st.table[k].account && st.table[k].context == context
    ensures var run := [Close(n, lost), DoUpdate(n', context, k, info, false), Close(n', again)];
      && AllPossible(st, run)
      && k in Run(st, run).table
      && Run(st, run).table[k] == st.table[k].(owner := 0, orphaned := again, info := info)
      && forall now :: (k in Reap(Run(st, run).table, now) <==> now - again <= GRACE)
  {
    var run := [Close(n, lost), DoUpdate(n', context, k, info, false), Close(n', again)];
    var (a, b) := (Step(st, run[0]), Step(Step(st, run[0]), run[1]));
    assert run[1..] == [run[1], run[2]] && run[1..][1..] == [run[2]] && run[1..][1..][1..] == [];
    assert AllPossible(Step(b, run[2]), []) && AllPossible(b, run[1..][1..]) && AllPossible(a, run[1..]);
    assert Run(st, run) == Run(a, run[1..]) == Run(b, run[1..][1..]) == Step(b, run[2]);
  }

  // ---------- from an orphan back to the moment it was lost ----------

  const NOBODY: State := State(map[], map[])

  lemma {:induction false} RunSnoc(st: State, run: seq<Action>)
    requires AllPossible(st, run) && run != []
    ensures var (before, a) := (run[..|run|-1], run[|run|-1]);
      AllPossible(st, before) && Possible(Run(st, before), a) && Run(st, run) == Step(Run(st, before), a)
    decreases |run|
  {
    if |run| == 1 {
      assert run[1..] == [];
    } else {
      RunSnoc(Step(st, run[0]), run[1..]);
      assert run[1..][..|run|-2] == run[..|run|-1][1..] && run[..|run|-1][0] == run[0];
    }
  }

  lemma {:induction false} PrefixPossible(st: State, run: seq<Action>, i: nat)
    requires AllPossible(st, run) && i <= |run|
    ensures AllPossible(st, run[..i])
    decreases |run|
  {
    if i == |run| { assert run[..i] == run; } else {
      RunSnoc(st, run);
      PrefixPossible(st, run[..|run|-1], i);
      assert run[..|run|-1][..i] == run[..i];
    }
  }

  /** The table after the first `i` steps of a run from the empty directory. */
  function TableAt(run: seq<Action>, i: nat): Table
    requires AllPossible(NOBODY, run) && i <= |run|
  {
    PrefixPossible(NOBODY, run, i);
    Run(NOBODY, run[..i]).table
  }

  /** Step `j` closed the connection that owned session `k`, and nothing has touched it since. */
  ghost predicate LostAt(run: seq<Action>, k: nat, j: nat)
    requires AllPossible(NOBODY, run)
  {
    && j < |run| && run[j].Close? && k in TableAt(run, j) && TableAt(run, j)[k].owner == run[j].n
    && StillLost(run, k, j, Orphan(TableAt(run, j)[k], run[j].n, run[j].now))
  }

  ghost predicate StillLost(run: seq<Action>, k: nat, j: nat, s: Session)
    requires AllPossible(NOBODY, run)
  {
    forall i :: j < i <= |run| ==> k in TableAt(run, i) && TableAt(run, i)[k] == s
  }

  /** A session without a connection was without it before, or has just lost it. */
  lemma OrphanFrom(st: State, a: Action, k: nat)
    requires Inv(st) && Possible(st, a) && k in Step(st, a).table && Step(st, a).table[k].owner == 0
    ensures k in st.table
    ensures st.table[k].owner == 0 ==> Step(st, a).table[k] == st.table[k]
    ensures st.table[k].owner != 0 ==> a.Close? && a.n == st.table[k].owner && Step(st, a).table[k] == Orphan(st.table[k], a.n, a.now)
  {
  }

  lemma TableAtPrefix(run: seq<Action>, i: nat)
    requires AllPossible(NOBODY, run) && run != [] && i < |run|
    ensures AllPossible(NOBODY, run[..|run|-1]) && TableAt(run, i) == TableAt(run[..|run|-1], i)
  {
    RunSnoc(NOBODY, run);
    assert run[..|run|-1][..i] == run[..i];
  }

  lemma TableAtEnd(run: seq<Action>)
    requires AllPossible(NOBODY, run)
    ensures TableAt(run, |run|) == Run(NOBODY, run).table
  {
    assert run[..|run|] == run;
  }

  lemma {:induction false} OrphanWasLost(run: seq<Action>, k: nat)
    requires AllPossible(NOBODY, run) && k in Run(NOBODY, run).table && Run(NOBODY, run).table[k].owner == 0
    ensures exists j: nat :: LostAt(run, k, j)
    decreases |run|
  {
    if run != [] {
      var before, a := run[..|run|-1], run[|run|-1];
      RunSnoc(NOBODY, run);
      RunKeepsInv(NOBODY, before);
      var st := Run(NOBODY, before);
      OrphanFrom(st, a, k);
      TableAtEnd(run);
      TableAtEnd(before);
      forall i | 0 <= i < |run| ensures TableAt(run, i) == TableAt(before, i) { TableAtPrefix(run, i); }
      hide Run, Step, AllPossible, Possible, Inv, TableAt;
      if st.table[k].owner != 0 {
        assert LostAt(run, k, |run|-1);
      } else {
        OrphanWasLost(before, k);
        var j: nat :| LostAt(before, k, j);
        assert LostAt(run, k, j);
      }
    }
  }

  /** Over every run: a sweep takes a session away if and only if, at some step more than the
      grace period ago, the connection that owned it closed, and nothing has touched the session
      since: neither the account taking it over again nor anyone else. */
  lemma ReapedExactlyAfterGrace(run: seq<Action>, k: nat, now: int)
    requires AllPossible(NOBODY, run) && k in Run(NOBODY, run).table
    ensures k !in Reap(Run(NOBODY, run).table, now) <==> exists j: nat :: LostAt(run, k, j) && now - run[j].now > GRACE
  {
    var s := Run(NOBODY, run).table[k];
    TableAtEnd(run);
    hide Run, AllPossible, TableAt;
    if s.owner == 0 { OrphanWasLost(run, k); }
    forall j: nat | LostAt(run, k, j) ensures s.owner == 0 && s.orphaned == run[j].now {
      assert k in TableAt(run, |run|) && TableAt(run, |run|)[k] == Orphan(TableAt(run, j)[k], run[j].n, run[j].now);
    }
  }

  // ---------- visibility ----------

  /** A reservation is published by its host's initialize request and by nothing else. */
  lemma PublishedExactlyBy(st: State, a: Action, k: nat)
    requires Inv(st) && Possible(st, a) && k in st.table && st.table[k].reserved
    ensures (k in Step(st, a).table && !Step(st, a).table[k].reserved) <==>
      a.DoUpdate? && a.publish && a.id == k && a.context == st.table[k].context && Owns(a.n, st.live[a.n], st.table[k])
  {
  }

  predicate NeverPublished(run: seq<Action>, k: nat) {
    forall i :: 0 <= i < |run| ==> !(run[i].DoUpdate? && run[i].publish && run[i].id == k) && !(run[i].DoCreate? && run[i].id == k)
  }

  predicate Hidden(st: State, k: nat) { k in st.table ==> st.table[k].reserved }

  /** Until then nobody finds it, whatever happens. */
  lemma {:induction false} ReservationStaysHidden(st: State, run: seq<Action>, k: nat)
    requires Inv(st) && AllPossible(st, run) && Hidden(st, k) && NeverPublished(run, k)
    ensures Hidden(Run(st, run), k)
    decreases |run|
  {
    if run != [] {
      var a := run[0];
      StepKeepsInv(st, a);
      if k in st.table { PublishedExactlyBy(st, a, k); }
      forall i | 0 <= i < |run[1..]|
        ensures !(run[1..][i].DoUpdate? && run[1..][i].publish && run[1..][i].id == k)
        ensures !(run[1..][i].DoCreate? && run[1..][i].id == k)
      {
        assert run[1..][i] == run[i+1];
      }
      ReservationStaysHidden(Step(st, a), run[1..], k);
    }
  }

  /** Neither listing shows a reservation or another context. Searching never shows a client its
      own session; asking for friends does only when it was made before the client was identified. */
  lemma WhatIsShown(st: State, n: nat, context: string, k: nat, account: nat)
    requires Inv(st) && n in st.live && k in st.table
    ensures var (s, me) := (st.table[k], st.live[n]);
      && (Findable(s, n, me, context) ==> !s.reserved && s.context == context && !Owns(n, me, s))
      && (Hosts(s, account, me, context) ==>
        !s.reserved && s.context == context && (Owns(n, me, s) <==> s.owner == n && s.account == 0))
  {
    assert Owned(st, st.table[k]);
  }

  /** And it can: a client creates a game before it is identified, is identified, and asks for
      the friend with id 0. */
  lemma OwnGameShown(info: Info)
    ensures var run := [Connect(1), DoCreate(1, "ctr:x", 7, info), Identify(1, 5)];
      && AllPossible(NOBODY, run) && 7 in Run(NOBODY, run).table && 1 in Run(NOBODY, run).live && Run(NOBODY, run).live[1] == 5
      && Hosts(Run(NOBODY, run).table[7], Resolve(map[], 0), 5, "ctr:x") && Owns(1, 5, Run(NOBODY, run).table[7])
  {
    var run := [Connect(1), DoCreate(1, "ctr:x", 7, info), Identify(1, 5)];
    var a := Step(NOBODY, run[0]);
    var b := Step(a, run[1]);
    var c := Step(b, run[2]);
    assert run[1..] == [run[1], run[2]] && run[1..][1..] == [run[2]] && run[1..][1..][1..] == [];
    assert AllPossible(c, []) && AllPossible(b, run[1..][1..]) && AllPossible(a, run[1..]);
    assert Run(NOBODY, run) == Run(a, run[1..]) == Run(b, run[1..][1..]) == c;
  }

  // ---------- reading what was found ----------

  /** A search collects sessions under the lock and reads their fields after releasing it. This is
      what such a read finds after a run of other calls: the session as it is by then, or as it
      was when it left the table. */
  function ReadLater(st: State, run: seq<Action>, k: nat): Session
    requires AllPossible(st, run) && k in st.table
    decreases |run|
  {
    if run == [] || k !in Step(st, run[0]).table then st.table[k] else ReadLater(Step(st, run[0]), run[1..], k)
  }

  /** What a session was is what it is: the same game, and published if it was. */
  predicate SameGame(was: Session, s: Session) {
    s.id == was.id && s.context == was.context && (s.reserved ==> was.reserved)
  }

  lemma StepSameGame(st: State, a: Action, k: nat)
    requires Possible(st, a) && k in st.table && k in Step(st, a).table
    ensures SameGame(st.table[k], Step(st, a).table[k])
    ensures ByHost(st, a, st.table[k]) || !Inv(st) || Step(st, a).table[k] == st.table[k]
  {
    if Inv(st) && !ByHost(st, a, st.table[k]) { OnlyTheHostChangesIt(st, a, k); }
  }

  /** The game's host made a request in this run. */
  predicate HostActs(st: State, run: seq<Action>, k: nat)
    requires AllPossible(st, run)
    decreases |run|
  {
    run != [] && k in st.table && (ByHost(st, run[0], st.table[k]) || HostActs(Step(st, run[0]), run[1..], k))
  }

  /** Whenever a field of a game found by a search is read, and whatever happens in between, it is
      a field of that very game in the context asked for, the game was published, and the field is
      as it was when the game was found unless the game's host has acted since. */
  lemma ReadsAreRight(st: State, run: seq<Action>, n: nat, pid: nat, context: string, k: nat)
    requires Inv(st) && AllPossible(st, run) && k in st.table && Findable(st.table[k], n, pid, context)
    ensures var s := ReadLater(st, run, k);
      s.id == k && s.context == context && !s.reserved && (s == st.table[k] || HostActs(st, run, k))
  {
    ReadsSameGame(st, run, k);
  }

  lemma {:induction false} ReadsSameGame(st: State, run: seq<Action>, k: nat)
    requires Inv(st) && AllPossible(st, run) && k in st.table
    ensures SameGame(st.table[k], ReadLater(st, run, k))
    ensures ReadLater(st, run, k) == st.table[k] || HostActs(st, run, k)
    decreases |run|
  {
    if run != [] && k in Step(st, run[0]).table {
      StepKeepsInv(st, run[0]);
      StepSameGame(st, run[0], k);
      ReadsSameGame(Step(st, run[0]), run[1..], k);
      hide Inv, Step, ByHost, Possible;
    }
  }
}
