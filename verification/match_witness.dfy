/** A concrete run after which a seated guest is never told to join, until it searches again. */
module MatchWitness {
  import opened MatchTypes
  import opened MatchSteps
  import opened MatchInvariant
  import opened MatchSync
  import opened MatchProgress
  import opened MatchRuns
  import opened MatchSeating
  import opened MatchSilence

  const HOST := Search(Conn(1, 10), 1, [10], 2, 8, "f", 1)
  const GUEST := Search(Conn(2, 20), 2, [20], 2, 8, "f", 1)
  const OPEN_DOC := HostDoc(true, true, map[])

  /** The guest's later searches, over the same connection. */
  const SECOND := GUEST.(id := 4)
  const THIRD := GUEST.(id := 5)

  const ONE := State([], map[], map[], 1)
  const QUEUED := State([HOST], map[], map[], 2)
  const FRESH := Room(3, 1, HOST, [HOST, GUEST], true, map[], 8, {HOST.conn}, 0, 0)
  const BOTH_TOLD := FRESH.(notified := {HOST.conn, GUEST.conn})
  const OPENED := State([], map[3 := FRESH], map[], 3)
  const TOLD := State([], map[3 := BOTH_TOLD], map[], 3)
  const LEFT := State([], map[3 := BOTH_TOLD.(players := [HOST])], map[], 3)
  const BACK := State([], map[3 := BOTH_TOLD.(players := [HOST, SECOND], version := 2)], map[], 4)
  const AGAIN := State([], map[3 := FRESH.(players := [HOST, THIRD], version := 3)], map[], 5)

  lemma HostQueues()
    ensures TableKeyed(ONE) && Enqueue(ONE, HOST).state == QUEUED.(ids := 1)
  {
    var st1 := Evict(ONE, HOST.conn.pid);
    assert st1 == ONE;
    assert Admitting(ONE, HOST) == {};
    assert Scanned(ONE, 0) == ONE;
    var q := [HOST];
    assert [] + [HOST] == q && q[..0] == [];
    assert Greedy(q, "f") == Consider(Greedy([], "f"), HOST, "f");
  }

  lemma GuestOpensRoom()
    ensures TableKeyed(QUEUED) && Enqueue(QUEUED, GUEST).state == OPENED
  {
    var q1, q := [HOST], [HOST, GUEST];
    assert q1[..0] == [] && q[..1] == q1;
    assert Select(q1, NotLedBy(20)) == q1;
    assert Evict(QUEUED, 20) == QUEUED;
    assert Admitting(QUEUED, GUEST) == {};
    assert Scanned(QUEUED, 0) == QUEUED;
    assert QUEUED.waiting + [GUEST] == q;
    var g1 := Greedy(q1, "f");
    assert Greedy([], "f") == Group([], 0, 2, 8);
    assert g1 == Group([HOST], 1, 2, 8);
    assert Greedy(q, "f") == Group(q, 2, 2, 8);
    assert Select([], NotIn(q)) == [];
    assert Select(q1, NotIn(q)) == [];
    assert Select(q, NotIn(q)) == [];
  }

  lemma NobodyRejected()
    ensures Reject(FRESH) == FRESH
  {
    var r := FRESH;
    var q1, q := [HOST], [HOST, GUEST];
    assert q1[..0] == [] && q[..1] == q1;
    NothingToTrim(r, HOST, [10]);
    NothingToTrim(r, GUEST, [20]);
    assert TrimAll(r, q1) == q1 && TrimAll(r, q) == q;
    assert Rejected(r, q) == {};
  }

  lemma GuestIsTold()
    ensures Release(OPENED, 3).state == TOLD && Release(OPENED, 3).out != []
  {
    hide Expected;
    var q1, q := [HOST], [HOST, GUEST];
    assert q1[..0] == [] && q[..1] == q1;
    assert Unreleased(q1, {HOST.conn}) == [];
    assert Unreleased(q, {HOST.conn}) == [GUEST];
    assert Conns(q) == {HOST.conn, GUEST.conn};
    assert FRESH.notified + Conns(q) == {HOST.conn, GUEST.conn};
    assert Release(OPENED, 3).state.rooms == TOLD.rooms;
  }

  lemma HostReleasesGuest()
    ensures TableKeyed(OPENED) && Sync(OPENED, HOST.conn, 3, 1, OPEN_DOC).state == TOLD
  {
    assert Adopt(OPENED, 3, OPEN_DOC) == OPENED;
    FinishMergeIdle(OPENED, 3);
    NobodyRejected();
    assert WithRoom(OPENED, FRESH) == OPENED;
    GuestIsTold();
    assert Backfill(TOLD, 3) == Outcome(TOLD, []);
    hide FinishMerge, Reject, Release, Backfill, Adopt, StartMerge;
    assert Settle(OPENED, 3, OPEN_DOC).out != [];
  }

  lemma GuestLeaves()
    ensures Leave(TOLD, GUEST.conn, 3) == LEFT
  {
    var q := [HOST, GUEST];
    assert q[1..] == [GUEST];
    assert First(q[1..], OfConn(GUEST.conn)) == 0;
    assert First(q, OfConn(GUEST.conn)) == 1;
    assert Without(q, 1) == [HOST];
    assert Leave(TOLD, GUEST.conn, 3).rooms[3] == LEFT.rooms[3];
  }

  lemma GuestReturns()
    ensures TableKeyed(LEFT.(ids := 4)) && Enqueue(LEFT.(ids := 4), SECOND).state == BACK
  {
    var st := LEFT.(ids := 4);
    var r := st.rooms[3];
    var q1 := [HOST];
    assert q1[..0] == [] && q1[1..] == [];
    assert First(q1, LedBy(20)) == 1;
    assert EvictFrom(r, 20) == r;
    assert Evict(st, 20) == st;
    assert Standing(r, [10]) == 1 by { StandingAll(r, [10]); }
    assert Taken(r, q1) == 1;
    assert Admitting(st, SECOND) == {3};
    assert Leader(st, {3}) == 3;
    assert Scanned(st, 3) == st;
    assert [HOST] + [SECOND] == [HOST, SECOND];
    assert Bump(Seat(r, SECOND)) == BACK.rooms[3];
  }

  /** A search takes its id from the counter when it is parsed, a room when it opens. */
  function Waiting(): seq<Action> { [DrawId] + [Ask(HOST)] + [DrawId] }
  function Match(): seq<Action> { Waiting() + [Ask(GUEST)] }
  function Joined(): seq<Action> { Match() + [HostSync(HOST.conn, 3, 1, OPEN_DOC)] }
  function Gone(): seq<Action> { Joined() + [Quit(GUEST.conn, 3)] }
  function Rejoin(): seq<Action> { Gone() + [DrawId] + [Ask(SECOND)] }
  function Research(): seq<Action> { Rejoin() + [DrawId] + [Ask(THIRD)] }

  lemma RunStep(run: seq<Action>, a: Action)
    requires AllLegal(run) && Legal(a)
    ensures AllLegal(run + [a]) && Run(run + [a]) == Step(Run(run), a).state
  {
    assert (run + [a])[..|run|] == run;
    hide Step;
  }

  lemma Drawn(run: seq<Action>)
    requires AllLegal(run)
    ensures AllLegal(run + [DrawId]) && Run(run + [DrawId]) == Run(run).(ids := Run(run).ids + 1)
  {
    RunStep(run, DrawId);
    hide Run, AllLegal;
  }

  lemma Asked(run: seq<Action>, s: Search)
    requires AllLegal(run) && ValidSearch(s)
    ensures AllLegal(run + [Ask(s)]) && Run(run + [Ask(s)]) == Enqueue(Run(run), s).state
  {
    RunStep(run, Ask(s));
    hide Run, AllLegal, Enqueue;
  }

  /** The four searches are acceptable; the counter at three points of the run. */
  lemma ValidSearches()
    ensures ValidSearch(HOST) && ValidSearch(GUEST) && ValidSearch(SECOND) && ValidSearch(THIRD)
    ensures QUEUED.ids == 2 && LEFT.ids == 3 && BACK.ids == 4
  {
  }

  lemma StartReaches()
    ensures AllLegal([DrawId]) && Run([DrawId]) == ONE
  {
    assert Run([]) == EMPTY;
    hide Run;
    Drawn([]);
    assert [] + [DrawId] == [DrawId];
  }

  lemma WaitingReaches()
    ensures AllLegal(Waiting()) && Run(Waiting()) == QUEUED
  {
    hide *;
    ValidSearches();
    StartReaches();
    HostQueues();
    Asked([DrawId], HOST);
    Drawn([DrawId] + [Ask(HOST)]);
    RunsAre();
  }

  lemma RunsAre()
    ensures Waiting() == [DrawId] + [Ask(HOST)] + [DrawId] && Match() == Waiting() + [Ask(GUEST)]
    ensures Joined() == Match() + [HostSync(HOST.conn, 3, 1, OPEN_DOC)] && Gone() == Joined() + [Quit(GUEST.conn, 3)]
    ensures Rejoin() == Gone() + [DrawId] + [Ask(SECOND)] && Research() == Rejoin() + [DrawId] + [Ask(THIRD)]
  {
  }

  lemma MatchReaches()
    ensures AllLegal(Match()) && Run(Match()) == OPENED
  {
    hide *;
    ValidSearches();
    WaitingReaches();
    GuestOpensRoom();
    Asked(Waiting(), GUEST);
    RunsAre();
  }

  lemma JoinedReaches()
    ensures AllLegal(Joined()) && Run(Joined()) == TOLD
  {
    hide Sync, Inv, Run, AllLegal, Match;
    MatchReaches();
    HostReleasesGuest();
    RunStep(Match(), HostSync(HOST.conn, 3, 1, OPEN_DOC));
  }

  lemma GoneReaches()
    ensures AllLegal(Gone()) && Run(Gone()) == LEFT
  {
    hide Leave, Inv, Run, AllLegal, Joined;
    JoinedReaches();
    GuestLeaves();
    RunStep(Joined(), Quit(GUEST.conn, 3));
  }

  lemma RejoinReaches()
    ensures AllLegal(Rejoin()) && Run(Rejoin()) == BACK
  {
    hide *;
    ValidSearches();
    GoneReaches();
    Drawn(Gone());
    GuestReturns();
    Asked(Gone() + [DrawId], SECOND);
    RunsAre();
  }

  lemma BackIsSilent()
    ensures Silent(BACK, GUEST.conn)
  {
    assert Conns([HOST, SECOND]) == {HOST.conn, GUEST.conn};
  }

  /** Two players match, the guest is told to join, leaves the lobby and searches again over
      the same connection. It is seated in the same room, and from then on no call whatever tells
      it to join, over every continuation in which it does not search once more. */
  lemma RejoinedGuestIsNeverTold(more: seq<Action>, a: Action, n: Notice)
    requires AllLegal(more) && NeverAsks(more, GUEST.conn) && n.conn == GUEST.conn
    ensures AllLegal(Rejoin()) && 3 in Run(Rejoin()).rooms && SECOND in Run(Rejoin()).rooms[3].players
    ensures AllLegal(Rejoin() + more) && (n in Step(Run(Rejoin() + more), a).out ==> n.event != JOIN_LOBBY)
  {
    RejoinReaches();
    BackIsSilent();
    assert SECOND in BACK.rooms[3].players;
    hide Step, Run, Inv, Silent;
    SilentUntilItAsks(Rejoin(), more, a, n);
  }

  // ---------- searching once more ----------

  lemma GuestAsksAgain()
    ensures TableKeyed(BACK.(ids := 5)) && Enqueue(BACK.(ids := 5), THIRD).state == AGAIN
  {
    var st := BACK.(ids := 5);
    var r := st.rooms[3];
    var q1, q := [HOST], [HOST, SECOND];
    assert q[1..] == [SECOND] && q1[1..] == [];
    assert First(q[1..], LedBy(20)) == 0;
    assert First(q, LedBy(20)) == 1;
    assert Without(q, 1) == q1;
    var e := r.(players := q1, notified := {HOST.conn});
    assert {HOST.conn, GUEST.conn} - {GUEST.conn} == {HOST.conn};
    assert EvictFrom(r, 20) == e;
    var st1 := State([], map[3 := e], map[], 5);
    assert Evict(st, 20) == st1;
    assert q1[..0] == [];
    assert Standing(e, [10]) == 1 by { StandingAll(e, [10]); }
    assert Taken(e, q1) == 1;
    assert Admitting(st1, THIRD) == {3};
    assert Leader(st1, {3}) == 3;
    assert Scanned(st1, 3) == st1;
    assert [HOST] + [THIRD] == [HOST, THIRD];
    assert Bump(Seat(e, THIRD)) == AGAIN.rooms[3];
  }

  lemma AgainReaches()
    ensures AllLegal(Research()) && Run(Research()) == AGAIN
  {
    hide *;
    ValidSearches();
    RejoinReaches();
    Drawn(Rejoin());
    GuestAsksAgain();
    Asked(Rejoin() + [DrawId], THIRD);
    RunsAre();
  }

  ghost predicate Told(out: seq<Notice>, c: Conn) { exists n :: n in out && n.event == JOIN_LOBBY && n.conn == c }

  lemma AgainTells(st: State)
    requires st == AGAIN && Inv(st)
    ensures TableKeyed(st) && Told(Sync(st, HOST.conn, 3, 3, OPEN_DOC).out, GUEST.conn)
  {
    assert Accepts(st, HOST.conn, 3, 3, OPEN_DOC);
    hide Sync, Inv;
    NothingToTrim(st.rooms[3].(states := OPEN_DOC.states), THIRD, [20]);
    ToldAfterSeating(st, 3, THIRD, HOST.conn, OPEN_DOC);
  }

  /** The one way out: when the guest searches once more while seated, it is taken off the told
      list, seated again, and told by the host's next document. */
  lemma AskingAgainIsTold()
    ensures AllLegal(Research())
    ensures Told(Step(Run(Research()), HostSync(HOST.conn, 3, 3, OPEN_DOC)).out, GUEST.conn)
  {
    hide Sync, Run, Inv, AllLegal, Research, Told;
    AgainReaches();
    AgainTells(Run(Research()));
  }
}
