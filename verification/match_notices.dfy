/** What an accepted document sends, notice by notice. */
module MatchNotices {
  import opened Common
  import opened MatchTypes
  import opened MatchSteps
  import opened MatchInvariant
  import opened MatchSync
  import opened MatchProgress
  import opened MatchRuns
  import opened MatchMerge
  import opened MatchSeating
  import opened MatchSynced
  import opened MatchAdmission
  import opened MatchTold

  /** Not reported as timed out; the host's account never is. */
  predicate Here(host: nat, states: map<nat, int>, m: nat) { m == host || m !in states || states[m] != 3 }

  /** Whoever of these searches the host's document does not report as timed out. */
  ghost function Present(host: nat, states: map<nat, int>, q: seq<Search>): set<nat> {
    set p, m | p in q && m in p.members && Here(host, states, m) :: m
  }

  lemma ExpectedIs(st: State, r: Room, q: seq<Search>)
    requires q == PlayersOf(st, r.source)
    ensures Expected(st, r) == Present(r.host.conn.pid, r.states, r.players + q)
  {
    forall m ensures r.Failed(m) <==> !Here(r.host.conn.pid, r.states, m) {}
    var (e, w) := (Expected(st, r), Present(r.host.conn.pid, r.states, r.players + q));
    forall m | m in e ensures m in w {
      var p :| p in r.players + PlayersOf(st, r.source) && m in p.members && !r.Failed(m);
      assert p in r.players + q && Here(r.host.conn.pid, r.states, m);
    }
    forall m | m in w ensures m in e {
      var p :| p in r.players + q && m in p.members && Here(r.host.conn.pid, r.states, m);
      assert p in r.players + PlayersOf(st, r.source) && !r.Failed(m);
    }
  }

  lemma NobodySource(st: State)
    requires 0 !in st.rooms && 0 !in st.gone
    ensures PlayersOf(st, 0) == []
  {
  }

  /** Settling the pending merge: an event for each search that is merged in, or one update when
      the merge is called off. */
  ghost predicate MergeSends(st: State, id: nat, doc: HostDoc, out: seq<Notice>)
    requires id in st.rooms && doc.HostDoc?
  {
    var r := st.rooms[id];
    var h := r.host.conn.pid;
    && (r.source == 0 ==> out == [])
    && (r.source != 0 && !Unites(st, id, doc) ==>
          out == [Notice(r.host.conn, UPDATE_LOBBY, [id, r.version + 1], Present(h, doc.states, r.players))])
    && (Unites(st, id, doc) ==>
          var q := st.rooms[r.source].players;
          && |out| == |q|
          && forall i :: 0 <= i < |q| ==>
               out[i] == Notice(q[i].conn, MERGE_LOBBY, [q[i].id, r.source, id], Present(h, doc.states, r.players + q)))
  }

  lemma CancelNotice(st: State, id: nat, doc: HostDoc)
    requires id in st.rooms && doc.HostDoc? && Keyed(st) && st.rooms[id].source != 0
    requires 0 !in st.rooms && 0 !in st.gone && st.rooms[id].source != id
    ensures var st1 := Adopt(st, id, doc); var r := st.rooms[id];
      && id in st1.rooms && id in CancelMerge(st1, id).rooms
      && UpdateNotice(CancelMerge(st1, id), CancelMerge(st1, id).rooms[id]) ==
           Notice(r.host.conn, UPDATE_LOBBY, [id, r.version + 1], Present(r.host.conn.pid, doc.states, r.players))
  {
    var st1, r := Adopt(st, id, doc), st.rooms[id];
    CancelledTable(st, id, doc);
    var c := CancelMerge(st1, id);
    NobodySource(c);
    ExpectedIs(c, c.rooms[id], []);
    assert r.players + [] == r.players;
    hide CancelMerge, Expected, Present, Keyed;
  }

  lemma CommitNotices(st: State, id: nat, doc: HostDoc)
    requires Inv(st) && id in st.rooms && doc.HostDoc? && Commits(st, id, doc) && st.rooms[id].source in st.rooms
    ensures TableKeyed(Adopt(st, id, doc)) && id in Adopt(st, id, doc).rooms
    ensures var (r, q) := (st.rooms[id], st.rooms[st.rooms[id].source].players); var out := FinishMerge(Adopt(st, id, doc), id).out;
      && |out| == |q|
      && forall i :: 0 <= i < |q| ==>
        out[i] == Notice(q[i].conn, MERGE_LOBBY, [q[i].id, r.source, id], Present(r.host.conn.pid, doc.states, r.players + q))
  {
    Adopted(st, id, doc);
    SourceOf(st, id);
    CommittedTable(st, id, doc);
    var st1 := Adopt(st, id, doc);
    var a := CommitMerge(st1, id);
    var src := st1.rooms[st.rooms[id].source];
    assert src == st.rooms[st.rooms[id].source];
    assert 0 !in a.rooms && 0 !in a.gone by { hide CommitMerge, Inv, MergeStands, Commits; }
    NobodySource(a);
    ExpectedIs(a, Absorbed(st1.rooms[id], src), []);
    CommitOut(st, id, doc);
    assert (st.rooms[id].players + src.players) + [] == st.rooms[id].players + src.players;
    hide Inv, FinishMerge, Commits, Expected, Present, CommitMerge, Adopt, RoomOk, NoneFailed;
  }

  lemma CommitOut(st: State, id: nat, doc: HostDoc)
    requires Inv(st) && id in st.rooms && doc.HostDoc? && Commits(st, id, doc) && st.rooms[id].source in st.rooms
    ensures TableKeyed(Adopt(st, id, doc)) && id in Adopt(st, id, doc).rooms && st.rooms[id].source in Adopt(st, id, doc).rooms
    ensures var st1 := Adopt(st, id, doc); var src := st1.rooms[st.rooms[id].source];
      && st1.rooms[id].source in st1.rooms
      && FinishMerge(st1, id).out == MergeNotices(src.players, st.rooms[id].source, id, Expected(CommitMerge(st1, id), Absorbed(st1.rooms[id], src)))
  {
    Adopted(st, id, doc);
    SourceOf(st, id);
    hide Inv, MergeStands, Expected, CommitMerge, RoomOk, NoneFailed;
  }

  lemma MergeSent(st: State, id: nat, doc: HostDoc)
    requires Inv(st) && id in st.rooms && doc.HostDoc?
    ensures TableKeyed(Adopt(st, id, doc)) && id in Adopt(st, id, doc).rooms
    ensures MergeSends(st, id, doc, FinishMerge(Adopt(st, id, doc), id).out)
  {
    hide *;
    FinishEither(st, id, doc);
    UnitesExactly(st, id, doc);
    InvParts(st);
    ZeroIsNoRoom(st);
    var out := FinishMerge(Adopt(st, id, doc), id).out;
    if Commits(st, id, doc) {
      CommitNotices(st, id, doc);
      NotIdle(st, id);
      MergedSends(st, id, doc, out);
    } else if st.rooms[id].source != 0 {
      CancelNotice(st, id, doc);
      PartedSends(st, id, doc, out);
    } else {
      IdleSends(st, id, doc, out);
    }
  }

  lemma NotIdle(st: State, id: nat)
    requires Inv(st) && id in st.rooms && st.rooms[id].source in st.rooms
    ensures st.rooms[id].source != 0
  {
    InvParts(st);
    ZeroIsNoRoom(st);
  }

  lemma MergedSends(st: State, id: nat, doc: HostDoc, out: seq<Notice>)
    requires id in st.rooms && doc.HostDoc? && st.rooms[id].source in st.rooms && st.rooms[id].source != 0 && Unites(st, id, doc)
    requires var (r, q) := (st.rooms[id], st.rooms[st.rooms[id].source].players);
      && |out| == |q|
      && forall i :: 0 <= i < |q| ==>
        out[i] == Notice(q[i].conn, MERGE_LOBBY, [q[i].id, r.source, id], Present(r.host.conn.pid, doc.states, r.players + q))
    ensures MergeSends(st, id, doc, out)
  {
    hide Present, Unites;
  }

  lemma PartedSends(st: State, id: nat, doc: HostDoc, out: seq<Notice>)
    requires id in st.rooms && doc.HostDoc? && st.rooms[id].source != 0 && !Unites(st, id, doc)
    requires var r := st.rooms[id];
      out == [Notice(r.host.conn, UPDATE_LOBBY, [id, r.version + 1], Present(r.host.conn.pid, doc.states, r.players))]
    ensures MergeSends(st, id, doc, out)
  {
    hide Present, Unites;
  }

  lemma IdleSends(st: State, id: nat, doc: HostDoc, out: seq<Notice>)
    requires id in st.rooms && doc.HostDoc? && st.rooms[id].source == 0 && !Commits(st, id, doc) && Inv(st) && out == []
    ensures MergeSends(st, id, doc, out)
  {
    UnitesExactly(st, id, doc);
    hide Present, Unites, Commits, Inv;
  }

  // ---------- releases ----------

  /** The searches of `q` that are not on the told list. */
  function Untold(q: seq<Search>, told: set<Conn>): seq<Search> { Select(q, (p: Search) => p.conn !in told) }

  lemma {:induction false} UnreleasedIsUntold(q: seq<Search>, told: set<Conn>)
    requires Distinct(q)
    ensures Unreleased(q, told) == Untold(q, told)
    decreases |q|
  {
    if q != [] {
      var q0, p := q[..|q|-1], q[|q|-1];
      assert q == q0 + [p];
      PidsAppend(q0, p);
      UnreleasedIsUntold(q0, told);
      ConnsPids(q0, p);
      hide Distinct, Pids, Conns;
    }
  }

  lemma ConnsPids(q: seq<Search>, p: Search)
    requires p.conn.pid !in Pids(q)
    ensures p.conn !in Conns(q)
  {
  }

  /** A join notice for each of `w`, naming its search and the room and listing everybody in it. */
  ghost predicate JoinsSent(w: seq<Search>, id: nat, kept: seq<Search>, out: seq<Notice>) {
    |out| == |w| && forall i :: 0 <= i < |w| ==> out[i] == Notice(w[i].conn, JOIN_LOBBY, [w[i].id, id], AllMembers(kept))
  }

  lemma ReleaseSent(b: State, id: nat)
    requires id in b.rooms && b.rooms[id].id == id && b.rooms[id].source == 0 && NoneFailed(b.rooms[id]) && 0 !in b.rooms && 0 !in b.gone
    requires Distinct(b.rooms[id].players)
    ensures JoinsSent(Untold(b.rooms[id].players, b.rooms[id].notified), id, b.rooms[id].players, Release(b, id).out)
  {
    UnreleasedIsUntold(b.rooms[id].players, b.rooms[id].notified);
    SeatedExpected(b, b.rooms[id]);
    hide Unreleased, Untold, Expected, AllMembers, NoneFailed;
  }

  lemma UntoldSame(q: seq<Search>, a: set<Conn>, b: set<Conn>)
    requires forall c :: c in Conns(q) ==> (c in a <==> c in b)
    ensures Untold(q, a) == Untold(q, b)
  {
    forall p | p in q ensures p.conn !in a <==> p.conn !in b { assert p.conn in Conns(q); }
    SelectSame(q, (p: Search) => p.conn !in a, (p: Search) => p.conn !in b);
  }

  // ---------- backfill and reservation ----------

  lemma FillSent(c: State, id: nat)
    requires Inv(c) && id in c.rooms && TableKeyed(c)
    ensures id in Backfill(c, id).state.rooms
    ensures var r' := Backfill(c, id).state.rooms[id];
      Backfill(c, id).out == if r'.version == c.rooms[id].version then []
        else [Notice(c.rooms[id].host.conn, UPDATE_LOBBY, [id, r'.version], AllMembers(r'.players))]
  {
    hide *;
    BackfillSends(c, id);
    BackfillKeeps(c, id);
    InvAt(c, id);
    InvAt(Backfill(c, id).state, id);
    InvParts(Backfill(c, id).state);
    ZeroIsNoRoom(Backfill(c, id).state);
    FillSame(c.rooms[id], c.waiting);
    FillNotice(c, id);
    if Backfill(c, id).out != [] { SeatedExpected(Backfill(c, id).state, Backfill(c, id).state.rooms[id]); }
  }

  lemma FillNotice(c: State, id: nat)
    requires id in c.rooms && TableKeyed(c)
    ensures id in Backfill(c, id).state.rooms
    ensures var b := Backfill(c, id);
      b.out != [] ==>
        && b.state.rooms[id].source == 0
        && b.out == [Notice(c.rooms[id].host.conn, UPDATE_LOBBY, [id, b.state.rooms[id].version], Expected(b.state, b.state.rooms[id]))]
  {
    FillSame(c.rooms[id], c.waiting);
    hide FillFrom, Expected;
  }

  lemma ReserveSent(u: State, id: nat, s: nat, v: Outcome)
    requires id in u.rooms && NoneFailed(u.rooms[id]) && Reserving(u, id, s, v.state)
    requires TableKeyed(u) && v == StartMerge(u, id)
    ensures s != 0 ==> s in u.rooms
    ensures v.out == if s == 0 then [] else
      [Notice(u.rooms[id].host.conn, UPDATE_LOBBY, [id, u.rooms[id].version + 1], AllMembers(u.rooms[id].players) + AllMembers(u.rooms[s].players))]
  {
    hide *;
    StartMergeNoticeIs(u, id);
    ReservingVersion(u, id, s, v.state);
    if s != 0 { ReservedExpected(u, id, s, v.state); }
  }

  lemma StartMergeNoticeIs(u: State, id: nat)
    requires TableKeyed(u) && id in u.rooms
    ensures id in StartMerge(u, id).state.rooms
    ensures var o := StartMerge(u, id); var r := o.state.rooms[id];
      o.out == if r.version == u.rooms[id].version then [] else [Notice(u.rooms[id].host.conn, UPDATE_LOBBY, [id, r.version], Expected(o.state, r))]
  {
    hide MergeOpen, Candidates, Expected, Leads, Leader, AllMembers;
  }

  lemma ReservingVersion(u: State, id: nat, s: nat, v: State)
    requires id in u.rooms && Reserving(u, id, s, v)
    ensures id in v.rooms && v.rooms[id].version == u.rooms[id].version + if s == 0 then 0 else 1
    ensures s != 0 ==> s in u.rooms && s != id
  {
    hide AllMembers;
  }

  lemma ReservedExpected(u: State, id: nat, s: nat, v: State)
    requires id in u.rooms && Reserving(u, id, s, v) && s != 0 && NoneFailed(u.rooms[id])
    ensures id in v.rooms && Expected(v, v.rooms[id]) == AllMembers(u.rooms[id].players) + AllMembers(u.rooms[s].players)
  {
    var r, q := v.rooms[id], u.rooms[s].players;
    assert PlayersOf(v, r.source) == q;
    ExpectedIs(v, r, q);
    var (h, w) := (r.host.conn.pid, Present(r.host.conn.pid, r.states, r.players + q));
    forall m | m in w ensures m in AllMembers(r.players) + AllMembers(q) {
      var p :| p in r.players + q && m in p.members && Here(h, r.states, m);
      assert p in r.players || p in q;
    }
    forall m | m in AllMembers(r.players) ensures m in w {
      var p :| p in r.players && m in p.members;
      assert !u.rooms[id].Failed(m) && u.rooms[id].host == r.host;
      assert p in r.players + q && m in p.members && Here(h, r.states, m);
    }
    forall m | m in AllMembers(q) ensures m in w {
      var p :| p in q && m in p.members;
      assert p in r.players + q && m in p.members && Here(h, r.states, m);
    }
  }

  // ---------- all of it ----------

  function Update(sent: bool, host: Conn, ids: seq<nat>, expected: set<nat>): seq<Notice> {
    if sent then [Notice(host, UPDATE_LOBBY, ids, expected)] else []
  }

  /** What an accepted document sends: the events or the update of its merge, a join notice for
      everybody kept who was not told, an update if the queue boarded, an update if a room was
      reserved; in this order, each with the new version and the accounts its room then expects. */
  ghost predicate Sends(st: State, a: Action, m: State, kept: seq<Search>, added: seq<Search>, u: State, s: nat, out: seq<Notice>)
    requires Heard(st, a) && a.room in m.rooms && a.room in u.rooms && (s != 0 ==> s in u.rooms)
  {
    var (id, host) := (a.room, st.rooms[a.room].host.conn);
    exists merged, joins ::
      && MergeSends(st, id, a.doc, merged) && JoinsSent(Untold(kept, m.rooms[id].notified), id, kept, joins)
      && out == merged + joins
           + Update(added != [], host, [id, u.rooms[id].version], AllMembers(kept + added))
           + Update(s != 0, host, [id, u.rooms[id].version + 1], AllMembers(kept + added) + if s == 0 then {} else AllMembers(u.rooms[s].players))
  }

  /** The notices of the three phases before a reservation. */
  lemma PhasesSend(st: State, id: nat, doc: HostDoc, kept: seq<Search>, added: seq<Search>)
    requires Inv(st) && id in st.rooms && doc.HostDoc? && TableKeyed(st) && TableKeyed(Adopt(st, id, doc)) && id in Adopt(st, id, doc).rooms
    requires var m := FinishMerge(Adopt(st, id, doc), id).state;
      Finished(st, id, doc, m) && id in m.rooms && Settled(m, id, doc, kept, added, Settle(st, id, doc).state)
    requires kept == Sorted(st, id, doc).players
    ensures id in Settle(st, id, doc).state.rooms
    ensures var f := FinishMerge(Adopt(st, id, doc), id); var b := WithRoom(f.state, Sorted(st, id, doc));
      && id in b.rooms && id in Release(b, id).state.rooms && MergeSends(st, id, doc, f.out)
      && JoinsSent(Untold(kept, f.state.rooms[id].notified), id, kept, Release(b, id).out)
      && Backfill(Release(b, id).state, id).out == (if added == [] then [] else
           [Notice(st.rooms[id].host.conn, UPDATE_LOBBY, [id, Settle(st, id, doc).state.rooms[id].version], AllMembers(kept + added))])
  {
    hide *;
    InvAt(st, id);
    MergeSent(st, id, doc);
    SettleParts(st, id, doc);
    SettledRoom(FinishMerge(Adopt(st, id, doc), id).state, id, doc, kept, added, Settle(st, id, doc).state);
    JoinsOf(st, id, doc);
    FillsOf(st, id, doc);
  }

  lemma JoinsOf(st: State, id: nat, doc: HostDoc)
    requires Inv(st) && id in st.rooms && doc.HostDoc? && TableKeyed(st) && TableKeyed(Adopt(st, id, doc)) && id in Adopt(st, id, doc).rooms
    ensures var f := FinishMerge(Adopt(st, id, doc), id); var r := Sorted(st, id, doc); var b := WithRoom(f.state, r);
      && id in b.rooms && JoinsSent(Untold(r.players, f.state.rooms[id].notified), id, r.players, Release(b, id).out)
  {
    hide *;
    SettleParts(st, id, doc);
    AdoptKeeps(st, id, doc);
    FinishMergeKeeps(Adopt(st, id, doc), id);
    var m := FinishMerge(Adopt(st, id, doc), id).state;
    AlmostDistinct(m, id);
    RejectKeeps(m, id);
    var b := WithRoom(m, Sorted(st, id, doc));
    InvAt(b, id);
    InvParts(b);
    ZeroIsNoRoom(b);
    FinishedTable(st, id, doc);
    FinishedRoomIs(st, id, doc, m);
    RejectSame(m.rooms[id]);
    ReleaseSent(b, id);
    SurvivorsTold(m.rooms[id]);
    UntoldSame(Sorted(st, id, doc).players, Sorted(st, id, doc).notified, m.rooms[id].notified);
  }

  lemma FillsOf(st: State, id: nat, doc: HostDoc)
    requires Inv(st) && id in st.rooms && doc.HostDoc? && TableKeyed(st) && TableKeyed(Adopt(st, id, doc)) && id in Adopt(st, id, doc).rooms
    ensures var f := FinishMerge(Adopt(st, id, doc), id); var b := WithRoom(f.state, Sorted(st, id, doc)); var r := Settle(st, id, doc).state.rooms[id];
      && id in b.rooms && id in Release(b, id).state.rooms
      && Backfill(Release(b, id).state, id).out == (if r.version == f.state.rooms[id].version then [] else
           [Notice(st.rooms[id].host.conn, UPDATE_LOBBY, [id, r.version], AllMembers(r.players))])
  {
    hide *;
    InvAt(st, id);
    SettleParts(st, id, doc);
    AdoptKeeps(st, id, doc);
    FinishMergeKeeps(Adopt(st, id, doc), id);
    var m := FinishMerge(Adopt(st, id, doc), id).state;
    RejectKeeps(m, id);
    var b := WithRoom(m, Sorted(st, id, doc));
    ReleaseKeeps(b, id);
    FinishedTable(st, id, doc);
    FinishedRoomIs(st, id, doc, m);
    RejectSame(m.rooms[id]);
    FillSent(Release(b, id).state, id);
  }

  lemma SettleSends(st: State, a: Action, kept: seq<Search>, added: seq<Search>)
    requires Inv(st) && Heard(st, a) && TableKeyed(st) && TableKeyed(Adopt(st, a.room, a.doc)) && a.room in Adopt(st, a.room, a.doc).rooms
    requires var m := FinishMerge(Adopt(st, a.room, a.doc), a.room).state;
      Finished(st, a.room, a.doc, m) && a.room in m.rooms && Settled(m, a.room, a.doc, kept, added, Settle(st, a.room, a.doc).state)
    requires kept == Sorted(st, a.room, a.doc).players
    ensures a.room in Settle(st, a.room, a.doc).state.rooms
    ensures var m := FinishMerge(Adopt(st, a.room, a.doc), a.room).state; var o := Settle(st, a.room, a.doc);
      Sends(st, a, m, kept, added, o.state, 0, o.out)
  {
    HeardRoom(st, a);
    hide *;
    PhasesSend(st, a.room, a.doc, kept, added);
    SettleParts(st, a.room, a.doc);
    var f := FinishMerge(Adopt(st, a.room, a.doc), a.room);
    var c := Release(WithRoom(f.state, Sorted(st, a.room, a.doc)), a.room);
    SendsFrom(st, a, f.state, kept, added, Settle(st, a.room, a.doc).state, f.out, c.out, Backfill(c.state, a.room).out);
  }

  lemma SendsFrom(st: State, a: Action, m: State, kept: seq<Search>, added: seq<Search>, u: State, merged: seq<Notice>, joins: seq<Notice>, filled: seq<Notice>)
    requires Heard(st, a) && a.room in m.rooms && a.room in u.rooms
    requires MergeSends(st, a.room, a.doc, merged) && JoinsSent(Untold(kept, m.rooms[a.room].notified), a.room, kept, joins)
    requires filled == if added == [] then []
      else [Notice(st.rooms[a.room].host.conn, UPDATE_LOBBY, [a.room, u.rooms[a.room].version], AllMembers(kept + added))]
    ensures Sends(st, a, m, kept, added, u, 0, merged + joins + filled)
  {
    assert merged + joins + filled + [] == merged + joins + filled;
    hide MergeSends, JoinsSent, Untold, AllMembers, Heard;
  }

  lemma SendsNothing(st: State, a: Action, m: State, kept: seq<Search>, added: seq<Search>, u: State, s: nat, reserved: seq<Notice>)
    requires Heard(st, a) && a.room in m.rooms && a.room in u.rooms && Sends(st, a, m, kept, added, u, 0, []) && (s != 0 ==> s in u.rooms)
    requires reserved == if s == 0 then [] else
      [Notice(st.rooms[a.room].host.conn, UPDATE_LOBBY, [a.room, u.rooms[a.room].version + 1],
        AllMembers(kept + added) + AllMembers(u.rooms[s].players))]
    ensures Sends(st, a, m, kept, added, u, s, reserved)
  {
    HeardRoom(st, a);
    hide MergeSends, JoinsSent, Untold, AllMembers, Heard;
    var (id, host) := (a.room, st.rooms[a.room].host.conn);
    var none := Update(added != [], host, [id, u.rooms[id].version], AllMembers(kept + added));
    var merged, joins :| MergeSends(st, id, a.doc, merged) && JoinsSent(Untold(kept, m.rooms[id].notified), id, kept, joins)
      && [] == merged + joins + none + Update(false, host, [id, u.rooms[id].version + 1], AllMembers(kept + added) + {});
    assert merged == [] && joins == [] && none == [];
    assert reserved == merged + joins + none + reserved;
  }

  /** With `SyncedExactly`: the notices of a document, all of them, under the numbers the game knows
      them by. A refused one sends nothing. */
  lemma SyncSends(st: State, a: Action) returns (m: State, kept: seq<Search>, added: seq<Search>, u: State, s: nat)
    requires Inv(st) && a.HostSync? && Heard(st, a)
    ensures TableKeyed(st) && a.room in m.rooms && a.room in u.rooms && (s != 0 ==> s in u.rooms)
    ensures Finished(st, a.room, a.doc, m) && Settled(m, a.room, a.doc, kept, added, u)
    ensures if Quiet(st, a.room, kept, added) then Reserving(u, a.room, s, Step(st, a).state) else s == 0 && Step(st, a).state == u
    ensures Sends(st, a, m, kept, added, u, s, Step(st, a).out)
    ensures JOIN_LOBBY == 2001 && UPDATE_LOBBY == 2006 && MERGE_LOBBY == 2008
  {
    hide *;
    EventNumbers();
    HeardRoom(st, a);
    HeardAccepts(st, a);
    InvKeyed(st);
    var id := a.room;
    kept, added := SettledExactly(st, id, a.doc);
    m, u, s := FinishMerge(Adopt(st, id, a.doc), id).state, Settle(st, id, a.doc).state, 0;
    SettledRoom(m, id, a.doc, kept, added, u);
    SettleSends(st, a, kept, added);
    QuietExactly(st, id, a.doc, kept, added);
    StepSync(st, a);
    SyncOut(st, a.conn, id, a.version, a.doc);
    SettleKeeps(st, id, a.doc);
    if Quiet(st, id, kept, added) {
      s := StartMergeExactly(u, id);
      InvAt(u, id);
      ReserveSent(u, id, s, StartMerge(u, id));
      SettledHost(m, id, a.doc, kept, added, u);
      FinishedRoomIs(st, id, a.doc, m);
      SendsNothing(st, a, m, kept, added, u, s, StartMerge(u, id).out);
    }
  }

  lemma SettledHost(m: State, id: nat, doc: HostDoc, kept: seq<Search>, added: seq<Search>, u: State)
    requires id in m.rooms && doc.HostDoc? && Settled(m, id, doc, kept, added, u)
    ensures id in u.rooms && u.rooms[id].host.conn == m.rooms[id].host.conn
  {
    CutSame(m.rooms[id].host.conn.pid, doc.states, m.rooms[id].host);
    hide Survive, ToldNow, Boarders, Tightest, AllMembers, Cut;
  }
}
