/** Off the told list and on it again: a guest cut from a room is told to join once it is back. */
module MatchTold {
  import opened Common
  import opened MatchTypes
  import opened MatchSteps
  import opened MatchInvariant
  import opened MatchSync
  import opened MatchProgress
  import opened MatchRuns
  import opened MatchMerge
  import opened MatchSeating
  import opened MatchSilence
  import opened MatchSynced
  import opened MatchAdmission

  // ---------- off the told list ----------

  /** This call may put the connection on the room's told list: an accepted document of the room,
      while the connection is seated there or about to be merged in. */
  ghost predicate MayTell(st: State, a: Action, id: nat, c: Conn) {
    a.HostSync? && a.room == id && Heard(st, a)
    && (c in Conns(st.rooms[id].players) || (st.rooms[id].source in st.rooms && c in Conns(st.rooms[st.rooms[id].source].players)))
  }

  lemma StepUntold(st: State, a: Action, id: nat, c: Conn)
    requires Inv(st) && Legal(a) && id in st.rooms && c !in st.rooms[id].notified && !MayTell(st, a, id, c)
    ensures TableKeyed(st) && (id in Step(st, a).state.rooms ==> c !in Step(st, a).state.rooms[id].notified)
  {
    InvParts(st);
    NewIdsFresh(st);
    hide Inv, Core, Keyed, Links, LeadersOnce, QueueOk, RoomsOk, Step, Heard;
    match a
    case DrawId => assert Step(st, a).state.rooms == st.rooms by { DrawStep(st); }
    case Ask(s) => AskUntold(st, s, id, c);
    case Withdraw(d, k) => WithdrawExactly(st, d, k);
    case Quit(d, k) => QuitExactly(st, d, k);
    case HostSync(_, k, _, _) => DocumentUntold(st, a, id, c);
  }

  lemma DrawStep(st: State)
    requires TableKeyed(st)
    ensures Step(st, DrawId).state.rooms == st.rooms
  {
  }

  lemma AskUntold(st: State, s: Search, id: nat, c: Conn)
    requires Inv(st) && Legal(Ask(s)) && TableKeyed(st) && id in st.rooms && c !in st.rooms[id].notified && st.ids + 1 !in st.rooms
    ensures id in Step(st, Ask(s)).state.rooms ==> c !in Step(st, Ask(s)).state.rooms[id].notified
  {
    hide *;
    LegalAsk(Ask(s));
    if id in Step(st, Ask(s)).state.rooms { AskRoom(st, s, id); }
  }

  lemma DocumentUntold(st: State, a: Action, id: nat, c: Conn)
    requires Inv(st) && TableKeyed(st) && a.HostSync? && id in st.rooms && c !in st.rooms[id].notified && !MayTell(st, a, id, c)
    ensures id in Step(st, a).state.rooms ==> c !in Step(st, a).state.rooms[id].notified
  {
    if Heard(st, a) {
      if a.room == id {
        var d, kept, added := AfterDocument(st, a);
        KeptLeaders(d.host.conn.pid, a.doc.states, d.players, kept);
        hide Inv, Step, Survive, Stays, Unites, Heard, Conns;
        MergedConns(st, a, d, c);
        assert c !in Conns(kept) by { NotThere(kept, d.players, c); }
      } else {
        OtherDocument(st, a, id);
      }
    } else {
      HeardAccepts(st, a);
      hide Inv, Step, Heard;
    }
  }

  lemma NotThere(kept: seq<Search>, q: seq<Search>, c: Conn)
    requires (forall x :: x in kept ==> x.conn in Conns(q)) && c !in Conns(q)
    ensures c !in Conns(kept)
  {
  }

  lemma MergedConns(st: State, a: Action, d: Room, c: Conn)
    requires Heard(st, a) && c !in st.rooms[a.room].notified && !MayTell(st, a, a.room, c)
    requires Unites(st, a.room, a.doc) ==>
      && d.players == st.rooms[a.room].players + st.rooms[st.rooms[a.room].source].players
      && d.notified == st.rooms[a.room].notified + set p | p in st.rooms[st.rooms[a.room].source].players :: p.conn
    requires !Unites(st, a.room, a.doc) ==> d.players == st.rooms[a.room].players && d.notified == st.rooms[a.room].notified
    ensures c !in d.notified && c !in Conns(d.players)
  {
    if Unites(st, a.room, a.doc) {
      ConnsConcat(st.rooms[a.room].players, st.rooms[st.rooms[a.room].source].players);
      assert st.rooms[a.room].source in st.rooms;
    }
    hide Heard, AllConnected, NobodyTwice, NoneIn;
  }

  lemma OtherDocument(st: State, a: Action, id: nat)
    requires Inv(st) && TableKeyed(st) && Heard(st, a) && a.HostSync? && id in st.rooms && id != a.room
    ensures id in Step(st, a).state.rooms ==> Step(st, a).state.rooms[id].notified == st.rooms[id].notified
  {
    HeardAccepts(st, a);
    AcceptsAt(st, a.conn, a.room, a.version, a.doc);
    StepSync(st, a);
    SyncReserves(st, a.conn, a.room, a.version, a.doc);
    hide Inv, Step, Sync, Heard, Settle;
  }

  /** No step of `more`, taken after `run`, may put the connection on the room's told list. */
  ghost predicate NoneTells(run: seq<Action>, more: seq<Action>, id: nat, c: Conn) {
    forall k :: 0 <= k < |more| ==> AllLegal(run + more[..k]) && !MayTell(Run(run + more[..k]), more[k], id, c)
  }

  lemma NoneTellsFront(run: seq<Action>, more: seq<Action>, id: nat, c: Conn)
    requires more != [] && NoneTells(run, more, id, c)
    ensures var (before, a) := (more[..|more|-1], more[|more|-1]);
      AllLegal(run + before) && !MayTell(Run(run + before), a, id, c) && NoneTells(run, before, id, c)
  {
    hide AllLegal, MayTell, Run;
    var before := more[..|more|-1];
    forall k | 0 <= k < |before| ensures AllLegal(run + before[..k]) && !MayTell(Run(run + before[..k]), before[k], id, c) {
      assert before[..k] == more[..k] && before[k] == more[k];
    }
  }

  /** Once off a room's told list a connection stays off it, whatever happens, until a document of
      the room finds it seated there or about to be merged in. */
  lemma {:induction false} UntoldStays(run: seq<Action>, more: seq<Action>, id: nat, c: Conn)
    requires AllLegal(run) && AllLegal(more) && AllLegal(run + more)
    requires id in Run(run).rooms && c !in Run(run).rooms[id].notified && id in Run(run + more).rooms
    requires NoneTells(run, more, id, c)
    ensures c !in Run(run + more).rooms[id].notified
    decreases |more|
  {
    hide *;
    if more == [] { assert run + more == run; } else {
      var before, a := more[..|more|-1], more[|more|-1];
      LastLegal(more);
      LegalConcat(run, before);
      LastOf(run, more);
      RunSnoc(run + more);
      StillThere(run, before, a, id);
      NoneTellsFront(run, more, id, c);
      UntoldStays(run, before, id, c);
      assert more[..|more|-1] == before;
      StepUntold(Run(run + before), a, id, c);
    }
  }

  lemma LastLegal(more: seq<Action>)
    requires more != [] && AllLegal(more)
    ensures AllLegal(more[..|more|-1]) && Legal(more[|more|-1])
  {
  }

  lemma StillThere(run: seq<Action>, before: seq<Action>, a: Action, id: nat)
    requires AllLegal(run) && AllLegal(before) && Legal(a) && AllLegal(run + before)
    requires id in Run(run).rooms && id in Step(Run(run + before), a).state.rooms
    ensures id in Run(run + before).rooms
  {
    hide *;
    StepProgress(Run(run + before), a);
    assert (run + before)[..|run|] == run;
    RunIdsGrow(run + before, |run|);
    IdBound(Run(run), id);
    NewIsFresh(Run(run + before), Step(Run(run + before), a).state, id);
  }

  lemma IdBound(st: State, id: nat)
    requires Inv(st) && id in st.rooms
    ensures id <= st.ids
  {
    InvParts(st);
    hide Inv, Core, Links, LeadersOnce, QueueOk, RoomsOk;
  }

  lemma NewIsFresh(st: State, st': State, id: nat)
    requires Progress(st, st') && id in st'.rooms && id <= st.ids
    ensures id in st.rooms
  {
    hide Advances, HoldsVersion;
  }

  /** A seated guest off the told list is told by the next accepted document, unless that document
      reports everybody in its search as timed out. */
  lemma SyncTells(st: State, b: Action, p: Search)
    requires Inv(st) && Heard(st, b) && p in st.rooms[b.room].players && !Lost(st.rooms[b.room], b.doc, p) && p.conn !in st.rooms[b.room].notified
    ensures TableKeyed(st) && exists n :: n in Step(st, b).out && n.event == JOIN_LOBBY && n.conn == p.conn && n.ids == [p.id, b.room]
  {
    hide *;
    HeardRoom(st, b);
    HeardAccepts(st, b);
    InvKeyed(st);
    StepSync(st, b);
    SyncJoins(st, b.conn, b.room, b.version, b.doc);
    var x := Cut(st.rooms[b.room].host.conn.pid, b.doc.states, p);
    CutSame(st.rooms[b.room].host.conn.pid, b.doc.states, p);
    KeptUntold(st, b.room, b.doc, p);
    JoinFor(Step(st, b).out, Sorted(st, b.room, b.doc), b.room, x);
  }

  lemma MergedDistinct(st: State, id: nat, doc: HostDoc, m: State) returns (moved: seq<Search>)
    requires Inv(st) && id in st.rooms && doc.HostDoc? && Finished(st, id, doc, m)
    ensures id in m.rooms && m.rooms[id].host == st.rooms[id].host && Distinct(m.rooms[id].players)
    ensures m.rooms[id].players == st.rooms[id].players + moved && m.rooms[id].notified == st.rooms[id].notified + Conns(moved)
  {
    hide *;
    MergedPlayers(st, id, doc, m);
    OneOfEach(st, id, doc, m.rooms[id].players);
    if Unites(st, id, doc) {
      SourceIn(st, id, doc);
      moved := st.rooms[st.rooms[id].source].players;
      ConnsAre(moved);
    } else {
      moved := [];
      NoConns([]);
      assert st.rooms[id].players + [] == st.rooms[id].players && st.rooms[id].notified + {} == st.rooms[id].notified;
    }
  }

  lemma SourceIn(st: State, id: nat, doc: HostDoc)
    requires id in st.rooms && doc.HostDoc? && Unites(st, id, doc)
    ensures st.rooms[id].source in st.rooms
  {
  }

  lemma ConnsAre(q: seq<Search>)
    ensures Conns(q) == set p | p in q :: p.conn
  {
  }

  lemma KeptUntold(st: State, id: nat, doc: HostDoc, p: Search)
    requires Inv(st) && id in st.rooms && doc.HostDoc? && p in st.rooms[id].players && !Lost(st.rooms[id], doc, p) && p.conn !in st.rooms[id].notified
    ensures TableKeyed(st)
    ensures var (x, r) := (Cut(st.rooms[id].host.conn.pid, doc.states, p), Sorted(st, id, doc));
      x in r.players && p.conn !in r.notified && Distinct(r.players)
  {
    hide *;
    InvKeyed(st);
    LostIsCut(st.rooms[id], doc, p);
    FinishedTable(st, id, doc);
    var m := FinishMerge(Adopt(st, id, doc), id).state;
    var moved := MergedDistinct(st, id, doc, m);
    AdoptKeeps(st, id, doc);
    FinishMergeKeeps(Adopt(st, id, doc), id);
    AlmostDistinct(m, id);
    SettleParts(st, id, doc);
    FinishedRoomIs(st, id, doc, m);
    ReleasedRoom(m.rooms[id], doc, Sorted(st, id, doc));
    assert p in m.rooms[id].players;
    SurvivorIn(st.rooms[id].host.conn.pid, doc.states, m.rooms[id].players, Sorted(st, id, doc).players, p);
    NotTold(m.rooms[id], p, st.rooms[id], moved);
    RejectDistinct(m.rooms[id]);
  }

  lemma RejectDistinct(r: Room)
    requires Distinct(r.players)
    ensures Distinct(Reject(r).players)
  {
    TrimAllThins(r, r.players);
    hide Distinct, TrimAll, Pids;
  }

  /** Nobody who is merged in has the guest's connection. */
  lemma NotTold(d: Room, p: Search, r: Room, moved: seq<Search>)
    requires RoomOk(d) && Distinct(d.players) && p in r.players && p.conn !in r.notified && d.players == r.players + moved
    requires d.notified == r.notified + Conns(moved)
    ensures p.conn !in d.notified && p.conn !in Reject(d).notified
  {
    RejectIs(d);
    forall q | q in moved ensures q.conn != p.conn {
      var i :| 0 <= i < |r.players| && r.players[i] == p;
      var j :| 0 <= j < |moved| && moved[j] == q;
      assert d.players[i] == p && d.players[|r.players| + j] == q;
    }
    hide Reject, RoomOk, Survive, Stays;
  }

  lemma JoinFor(out: seq<Notice>, r: Room, id: nat, x: Search)
    requires JoinsExactly(out, r.players, Pending(r), id) && x in r.players && x.conn !in r.notified && Distinct(r.players)
    ensures exists n :: n in out && n.event == JOIN_LOBBY && n.conn == x.conn && n.ids == [x.id, id]
  {
    assert x.conn in Pending(r);
    var n :| n in out && n.event == JOIN_LOBBY && n.conn == x.conn;
    var y :| y in r.players && y.conn == n.conn && n.ids == [y.id, id];
    SameConnSameSearch(r.players, x, y);
  }

  lemma CutIsOff(run: seq<Action>, a: Action, p: Search)
    requires AllLegal(run) && AllLegal(run + [a]) && Heard(Run(run), a)
    requires p in Run(run).rooms[a.room].players && Lost(Run(run).rooms[a.room], a.doc, p)
    ensures a.room in Run(run + [a]).rooms && p.conn !in Run(run + [a]).rooms[a.room].notified
  {
    hide *;
    RejectedIsOff(Run(run), a, p);
    assert (run + [a])[..|run + [a]|-1] == run && (run + [a])[|run + [a]|-1] == a;
    RunSnoc(run + [a]);
  }

  /** A guest whom the host's document cut from a room, once seated there again over the same
      connection, is told to join by the next accepted document of the room that does not cut it
      again: whatever happens in between. */
  lemma RejectedIsToldAgain(run: seq<Action>, a: Action, p: Search, more: seq<Action>, again: Search, b: Action)
    requires AllLegal(run) && AllLegal(more) && AllLegal(run + [a]) && AllLegal(run + [a] + more)
    requires Heard(Run(run), a) && p in Run(run).rooms[a.room].players && Lost(Run(run).rooms[a.room], a.doc, p)
    requires NoneTells(run + [a], more, a.room, p.conn)
    requires var st := Run(run + [a] + more);
      && Heard(st, b) && b.room == a.room && again in st.rooms[b.room].players && again.conn == p.conn
      && !Lost(st.rooms[b.room], b.doc, again)
    ensures exists n :: n in Step(Run(run + [a] + more), b).out && n.event == JOIN_LOBBY && n.conn == p.conn && n.ids == [again.id, b.room]
  {
    HeardRoom(Run(run + [a] + more), b);
    hide *;
    CutIsOff(run, a, p);
    UntoldStays(run + [a], more, a.room, p.conn);
    SyncTells(Run(run + [a] + more), b, again);
  }

  lemma HeardRoom(st: State, b: Action)
    requires Heard(st, b)
    ensures b.HostSync? && b.room in st.rooms && b.doc.HostDoc?
  {
  }
}
