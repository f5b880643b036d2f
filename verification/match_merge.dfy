/** What a committed merge does, when it happens, and two facts about being told to join and
    about grouping. */
module MatchMerge {
  import opened MatchTypes
  import opened MatchSteps
  import opened MatchInvariant
  import opened MatchSync
  import opened MatchProgress
  import opened MatchRuns

  // ---------- commits ----------

  lemma TrimAllSnoc(r: Room, q: seq<Search>, p: Search)
    requires Trim(r, p) == p && p.members != []
    ensures TrimAll(r, q + [p]) == TrimAll(r, q) + [p]
  {
    hide Trim;
    assert (q + [p])[..|q|] == q;
  }

  lemma EndOf(a: seq<Search>, b: seq<Search>)
    requires b != []
    ensures b[|b|-1] in b && a + b == (a + b[..|b|-1]) + [b[|b|-1]]
  {
  }

  /** Trimming leaves a search alone when none of its members failed. */
  lemma {:induction false} TrimAllKeepsTail(r: Room, a: seq<Search>, b: seq<Search>)
    requires forall p :: p in b ==> p.seats == |p.members| >= 1 && forall m :: m in p.members ==> !r.Failed(m)
    ensures TrimAll(r, a + b) == TrimAll(r, a) + b
    decreases |b|
  {
    if b == [] {
      assert a + b == a && TrimAll(r, a) + b == TrimAll(r, a);
    } else {
      hide TrimAll;
      var b0, p := b[..|b|-1], b[|b|-1];
      TrimAllKeepsTail(r, a, b0);
      NothingToTrim(r, p, p.members);
      TrimAllSnoc(r, a + b0, p);
      EndOf(a, b);
      EndOf(TrimAll(r, a), b);
    }
  }

  /** The sync of `id` with this document commits the pending merge. */
  ghost predicate Commits(st: State, id: nat, doc: HostDoc) {
    && id in st.rooms && doc.HostDoc?
    && var st1 := Adopt(st, id, doc);
       st1.rooms[id].source in st1.rooms && MergeStands(st1, st1.rooms[id], st1.rooms[st1.rooms[id].source])
  }

  /** The destination right after the merge, before rejection. */
  function Joint(st: State, id: nat, doc: HostDoc): Room
    requires id in st.rooms && doc.HostDoc? && st.rooms[id].source in st.rooms
  {
    Absorbed(st.rooms[id].(open := doc.open, states := doc.states), st.rooms[st.rooms[id].source])
  }

  lemma CommitFinish(st: State, id: nat, doc: HostDoc)
    requires Inv(st) && Commits(st, id, doc)
    ensures TableKeyed(st) && st.rooms[id].source in st.rooms && st.rooms[id].source != id
    ensures var o := FinishMerge(Adopt(st, id, doc), id); var src := st.rooms[st.rooms[id].source];
      && o.state == CommitMerge(Adopt(st, id, doc), id) && o.state.rooms[id] == Joint(st, id, doc)
      && src.id !in o.state.rooms && src.id == st.rooms[id].source && o.state.waiting == st.waiting
      && exists expected :: o.out == MergeNotices(src.players, src.id, id, expected)
  {
    InvKeyed(st);
    assert Paired(st.rooms[id], Find(st, st.rooms[id].source));
    hide Inv, MergeStands, Expected;
    var st1 := Adopt(st, id, doc);
    var src := st1.rooms[st1.rooms[id].source];
    assert FinishMerge(st1, id).out == MergeNotices(src.players, src.id, id, Expected(CommitMerge(st1, id), Absorbed(st1.rooms[id], src)));
  }

  lemma MovedStand(st: State, id: nat, doc: HostDoc)
    requires Inv(st) && Commits(st, id, doc)
    ensures st.rooms[id].source in st.rooms
    ensures forall p :: p in st.rooms[st.rooms[id].source].players ==>
      p.seats == |p.members| >= 1 && forall m :: m in p.members ==> !Joint(st, id, doc).Failed(m)
  {
    CommitFinish(st, id, doc);
    var src := st.rooms[st.rooms[id].source];
    assert RoomOk(src);
    hide Inv;
    var st1 := Adopt(st, id, doc);
    assert forall m :: Joint(st, id, doc).Status(m) == st1.rooms[id].Status(m);
  }

  /** Rejection keeps every moved search, untouched and told. */
  lemma MovedKept(st: State, id: nat, doc: HostDoc)
    requires Inv(st) && Commits(st, id, doc)
    ensures TableKeyed(st) && st.rooms[id].source in st.rooms
    ensures var src := st.rooms[st.rooms[id].source]; var r := Sorted(st, id, doc);
      && r.players == TrimAll(Joint(st, id, doc), st.rooms[id].players) + src.players
      && Conns(src.players) <= r.notified
  {
    CommitFinish(st, id, doc);
    MovedStand(st, id, doc);
    AdoptKeeps(st, id, doc);
    FinishMergeKeeps(Adopt(st, id, doc), id);
    AlmostDistinct(FinishMerge(Adopt(st, id, doc), id).state, id);
    var src := st.rooms[st.rooms[id].source];
    var j := Joint(st, id, doc);
    hide Inv, Almost, FinishMerge, RoomOk;
    TrimAllKeepsTail(j, st.rooms[id].players, src.players);
    forall c | c in Conns(src.players) ensures c in Reject(j).notified {
      var p :| p in src.players && p.conn == c;
      NothingToTrim(j, p, p.members);
      assert p in j.players;
      if c in Rejected(j, j.players) {
        var x :| x in j.players && Trim(j, x).members == [] && x.conn == c;
        SameConnSameSearch(j.players, p, x);
      }
    }
  }

  /** A committed merge empties the source into the destination: the source leaves the table;
      the destination holds its own surviving searches, then exactly the source's searches in
      order, then searches taken from the queue; the sync's notices start with one merge event
      for each moved search, naming its id, the old and the new lobby, and no moved search is
      told to join or gets a second merge event. */
  lemma CommittedMerge(st: State, c: Conn, id: nat, version: nat, doc: HostDoc)
    requires Inv(st) && Accepts(st, c, id, version, doc) && Commits(st, id, doc)
    ensures TableKeyed(st) && st.rooms[id].source in st.rooms
    ensures var src := st.rooms[st.rooms[id].source]; var o := Sync(st, c, id, version, doc); var k := |src.players|;
      && src.id !in o.state.rooms && id in o.state.rooms
      && (exists added :: o.state.rooms[id].players == TrimAll(Joint(st, id, doc), st.rooms[id].players) + src.players + added
            && forall p :: p in added ==> p in st.waiting)
      && k <= |o.out|
      && (forall i :: 0 <= i < k ==>
            && o.out[i].conn == src.players[i].conn && o.out[i].event == MERGE_LOBBY
            && o.out[i].ids == [src.players[i].id, src.id, id])
      && (forall i :: k <= i < |o.out| ==> o.out[i].event != MERGE_LOBBY)
      && (forall n :: n in o.out && n.event == JOIN_LOBBY ==> n.conn !in Conns(src.players))
  {
    hide *;
    InvParts(st);
    AcceptsAt(st, c, id, version, doc);
    ZeroIsNoRoom(st);
    CommitFinish(st, id, doc);
    SyncResolves(st, c, id, version, doc);
    SettleNoRevival(st, id, doc);
    MovedKept(st, id, doc);
    var added := SettleAdded(st, id, doc);
    assert Settle(st, id, doc).state.rooms[id].players
        == TrimAll(Joint(st, id, doc), st.rooms[id].players) + st.rooms[st.rooms[id].source].players + added;
    CommittedNotices(st, id, doc);
    SyncJoins(st, c, id, version, doc);
    JoinsPending(Settle(st, id, doc).out, Sorted(st, id, doc), id, Conns(st.rooms[st.rooms[id].source].players));
  }

  lemma CommittedNotices(st: State, id: nat, doc: HostDoc)
    requires Inv(st) && Commits(st, id, doc)
    ensures TableKeyed(st) && id in st.rooms && doc.HostDoc? && st.rooms[id].source in st.rooms
    ensures var src := st.rooms[st.rooms[id].source]; var out := Settle(st, id, doc).out; var k := |src.players|;
      && k <= |out|
      && (forall i :: 0 <= i < k ==>
            out[i].conn == src.players[i].conn && out[i].event == MERGE_LOBBY && out[i].ids == [src.players[i].id, src.id, id])
      && (forall i :: k <= i < |out| ==> out[i].event != MERGE_LOBBY)
  {
    hide *;
    CommitsAt(st, id, doc);
    CommitFinish(st, id, doc);
    SettleParts(st, id, doc);
    SettleTail(st, id, doc);
    FrontNotices(FinishMerge(Adopt(st, id, doc), id).out, Settle(st, id, doc).out);
  }

  lemma CommitsAt(st: State, id: nat, doc: HostDoc)
    requires Commits(st, id, doc)
    ensures id in st.rooms && doc.HostDoc?
  {
  }

  lemma FrontNotices(front: seq<Notice>, out: seq<Notice>)
    requires |front| <= |out| && out[..|front|] == front
    ensures forall i :: 0 <= i < |front| ==> out[i] == front[i]
  {
    assert forall i :: 0 <= i < |front| ==> out[i] == out[..|front|][i];
  }

  lemma JoinsPending(out: seq<Notice>, r: Room, room: nat, told: set<Conn>)
    requires JoinsExactly(out, r.players, Pending(r), room) && told <= r.notified
    ensures forall n :: n in out && n.event == JOIN_LOBBY ==> n.conn !in told
  {
    hide Conns;
  }

  /** After finishMerge no further merge events and no further rooms appear in a sync. */
  lemma SettleTail(st: State, id: nat, doc: HostDoc)
    requires TableKeyed(st) && id in st.rooms && doc.HostDoc?
    ensures var a := FinishMerge(Adopt(st, id, doc), id); var out := Settle(st, id, doc).out;
      && |a.out| <= |out| && out[..|a.out|] == a.out
      && forall i :: |a.out| <= i < |out| ==> out[i].event != MERGE_LOBBY
  {
    var a := FinishMerge(Adopt(st, id, doc), id);
    hide FinishMerge, Reject, Expected, FillFrom, Unreleased;
    var b := WithRoom(a.state, Reject(a.state.rooms[id]));
    assert b.rooms[id] == Reject(a.state.rooms[id]) by { RejectSame(a.state.rooms[id]); }
    ReleaseKeyed(b, id);
    var c := Release(b, id);
    QuietParts(c.state, id);
    var d := Backfill(c.state, id);
    hide Release, Backfill;
    assert Settle(st, id, doc).out == a.out + c.out + d.out;
    assert forall n :: n in c.out ==> n.event == JOIN_LOBBY by { ReleaseEvents(b, id); }
    forall i | |a.out| <= i < |a.out + c.out + d.out| ensures (a.out + c.out + d.out)[i].event != MERGE_LOBBY {
      if i < |a.out| + |c.out| { assert c.out[i - |a.out|] in c.out; } else { assert d.out[i - |a.out| - |c.out|] in d.out; }
    }
  }

  lemma ReleaseEvents(st: State, id: nat)
    requires id in st.rooms
    ensures forall n :: n in Release(st, id).out ==> n.event == JOIN_LOBBY
  {
  }

  lemma SettleNoRevival(st: State, id: nat, doc: HostDoc)
    requires TableKeyed(st) && id in st.rooms && doc.HostDoc?
    ensures Settle(st, id, doc).state.rooms.Keys <= FinishMerge(Adopt(st, id, doc), id).state.rooms.Keys
  {
    var a := FinishMerge(Adopt(st, id, doc), id);
    hide FinishMerge, Expected, FillFrom, Unreleased;
    RejectSame(a.state.rooms[id]);
    FillSame(Release(WithRoom(a.state, Reject(a.state.rooms[id])), id).state.rooms[id], a.state.waiting);
    hide Reject;
  }

  /** A merge event is only ever sent by a sync of the destination's host that carries the
      destination's current version and finds the reservation still standing. */
  lemma MergeEventMeansCommit(st: State, a: Action, n: Notice)
    requires Inv(st) && TableKeyed(st)
    ensures n in Step(st, a).out && n.event == MERGE_LOBBY ==>
      a.HostSync? && Accepts(st, a.conn, a.room, a.version, a.doc) && Commits(st, a.room, a.doc)
  {
    OnlySyncMerges(st, a, n);
    if n in Step(st, a).out && n.event == MERGE_LOBBY { SyncCommits(st, a, n); }
    hide Inv, Step, Commits;
  }

  lemma SyncCommits(st: State, a: Action, n: Notice)
    requires Inv(st) && TableKeyed(st) && n.event == MERGE_LOBBY && a.HostSync?
    requires Accepts(st, a.conn, a.room, a.version, a.doc)
    ensures n in Step(st, a).out ==> Commits(st, a.room, a.doc)
  {
    hide *;
    AcceptsAt(st, a.conn, a.room, a.version, a.doc);
    StepSync(st, a);
    SyncOut(st, a.conn, a.room, a.version, a.doc);
    var o := Settle(st, a.room, a.doc);
    ReservingMergesNone(o.state, a.room);
    if n in Step(st, a).out {
      SettleParts(st, a.room, a.doc);
      SettleTail(st, a.room, a.doc);
      var f := FinishMerge(Adopt(st, a.room, a.doc), a.room);
      InFront(f.out, o.out, n);
      MergeOutCommits(st, a.room, a.doc, n);
    }
  }

  lemma ReservingMergesNone(st: State, id: nat)
    requires TableKeyed(st) && id in st.rooms
    ensures forall n :: n in StartMerge(st, id).out ==> n.event != MERGE_LOBBY
  {
    QuietParts(st, id);
    hide StartMerge;
  }

  lemma InFront(front: seq<Notice>, out: seq<Notice>, n: Notice)
    requires |front| <= |out| && out[..|front|] == front && n in out && n.event == MERGE_LOBBY
    requires forall i :: |front| <= i < |out| ==> out[i].event != MERGE_LOBBY
    ensures n in front
  {
    var i :| 0 <= i < |out| && out[i] == n;
    assert front[i] == out[..|front|][i];
  }

  lemma StepSync(st: State, a: Action)
    requires TableKeyed(st) && a.HostSync?
    ensures Step(st, a) == Sync(st, a.conn, a.room, a.version, a.doc)
  {
    hide Sync;
  }

  lemma MergeOutCommits(st: State, id: nat, doc: HostDoc, n: Notice)
    requires TableKeyed(st) && id in st.rooms && doc.HostDoc? && n.event == MERGE_LOBBY
    requires TableKeyed(Adopt(st, id, doc)) && id in Adopt(st, id, doc).rooms && n in FinishMerge(Adopt(st, id, doc), id).out
    ensures Commits(st, id, doc)
  {
    hide Expected, MergeStands, CommitMerge, CancelMerge;
  }

  lemma OnlySyncMerges(st: State, a: Action, n: Notice)
    requires TableKeyed(st)
    ensures n in Step(st, a).out && n.event == MERGE_LOBBY ==>
      a.HostSync? && Accepts(st, a.conn, a.room, a.version, a.doc)
  {
    hide Evict, Scanned, Expected, Greedy, Leave;
  }

  lemma SyncReserves(st: State, c: Conn, id: nat, version: nat, doc: HostDoc)
    requires Inv(st) && Accepts(st, c, id, version, doc)
    ensures TableKeyed(st)
    ensures var o := Sync(st, c, id, version, doc);
      && OthersKept(st, o.state, id)
      && (st.rooms[id].source == 0 && o.state.rooms[id].source != 0 ==>
            && o.state.rooms[id].version == Settle(st, id, doc).state.rooms[id].version + 1
            && |o.out| == 1 && o.out[0].event == UPDATE_LOBBY && o.out[0].ids == [id, o.state.rooms[id].version])
  {
    InvKeyed(st);
    SettleOthers(st, id, doc);
    SettleKeeps(st, id, doc);
    if st.rooms[id].source == 0 {
      SettleIdle(st, id, doc);
    } else {
      SyncResolves(st, c, id, version, doc);
    }
    hide Inv, Settle, StartMerge, OthersKept;
    var o := Settle(st, id, doc);
    InvKeyed(o.state);
    if o.out == [] && st.rooms[id].source == 0 {
      StartMergeOthers(o.state, id);
      StartMergeNotice(o.state, id);
      OthersTransitive(st, o.state, StartMerge(o.state, id).state, id);
    }
  }

  /** Reserving: the only way a live room gets a source is startMerge in its own host's sync,
      which raises its version by one and asks the host for a new document. */
  lemma ReservationBumps(st: State, a: Action, id: nat)
    requires Inv(st) && Legal(a) && id in st.rooms && st.rooms[id].source == 0
    ensures TableKeyed(st)
    ensures var o := Step(st, a); id in o.state.rooms && o.state.rooms[id].source != 0 ==>
      && a.HostSync? && a.room == id && Accepts(st, a.conn, id, a.version, a.doc)
      && o.state.rooms[id].version == Settle(st, id, a.doc).state.rooms[id].version + 1
      && |o.out| == 1 && o.out[0].event == UPDATE_LOBBY && o.out[0].ids == [id, o.state.rooms[id].version]
  {
    InvKeyed(st);
    hide *;
    if a.HostSync? && Accepts(st, a.conn, a.room, a.version, a.doc) {
      AcceptsAt(st, a.conn, a.room, a.version, a.doc);
      StepSync(st, a);
      SyncReserves(st, a.conn, a.room, a.version, a.doc);
      OtherSource(st, Step(st, a).state, a.room, id);
    } else if a.Ask? {
      LegalAsk(a);
      EnqueueSources(st, a.s, id);
      StepAsk(st, a);
    } else {
      OtherSources(st, a, id);
    }
  }

  lemma LegalAsk(a: Action)
    requires a.Ask? && Legal(a)
    ensures ValidSearch(a.s)
  {
  }

  lemma StepAsk(st: State, a: Action)
    requires TableKeyed(st) && a.Ask?
    ensures Step(st, a) == Enqueue(st, a.s)
  {
    hide Enqueue;
  }

  lemma OtherSource(st: State, st': State, id: nat, o: nat)
    requires OthersKept(st, st', id)
    ensures o != id && o in st.rooms && o in st'.rooms ==> st'.rooms[o].source == st.rooms[o].source
  {
  }

  /** Calls other than searches and accepted syncs change no source. */
  lemma OtherSources(st: State, a: Action, id: nat)
    requires TableKeyed(st) && !a.Ask? && !(a.HostSync? && Accepts(st, a.conn, a.room, a.version, a.doc)) && id in st.rooms
    ensures id in Step(st, a).state.rooms ==> Step(st, a).state.rooms[id].source == st.rooms[id].source
  {
    hide Accepts, Settle, StartMerge, Select, DropFirst;
  }

  lemma StartMergeNotice(st: State, id: nat)
    requires TableKeyed(st) && id in st.rooms && st.rooms[id].source == 0
    ensures var o := StartMerge(st, id); o.state.rooms[id].source != 0 ==>
      |o.out| == 1 && o.out[0].event == UPDATE_LOBBY && o.out[0].ids == [id, o.state.rooms[id].version]
  {
    hide MergeOpen, Candidates, Expected;
  }

  lemma PlaceSources(st: State, sel: nat, s: Search, id: nat)
    requires TableKeyed(st) && id in st.rooms && st.ids + 1 !in st.rooms && st.rooms[id].source == 0
    ensures id in Place(st, sel, s).state.rooms && Place(st, sel, s).state.rooms[id].source == 0
  {
    hide Greedy, Expected;
    if sel in st.rooms { SeatSame(st.rooms[sel], s); }
  }

  lemma CalmAt(st: State, st': State, id: nat)
    requires Keyed(st) && CalmStep(st, st') && id in st.rooms
    ensures st'.ids == st.ids && st.ids + 1 !in st'.rooms && id != st.ids + 1
    ensures id in st'.rooms ==> st'.rooms[id].source == st.rooms[id].source
  {
  }

  lemma EnqueueSources(st: State, s: Search, id: nat)
    requires Inv(st) && ValidSearch(s) && id in st.rooms && st.rooms[id].source == 0
    ensures TableKeyed(st) && (id in Enqueue(st, s).state.rooms ==> Enqueue(st, s).state.rooms[id].source == 0)
  {
    InvKeyed(st);
    EvictKeeps(st, s.conn.pid);
    InvLeaders(st);
    hide Inv, Evict, Admits, Place, Scanned, CalmStep, ValidSearch, Keyed;
    var st1 := Evict(st, s.conn.pid);
    InvKeyed(st1);
    EvictCalm(st, s.conn.pid);
    var sel := Leader(st1, Admitting(st1, s));
    var st2 := Scanned(st1, sel);
    ScannedSame(st1, sel);
    ScannedCalm(st1, sel);
    CalmTransitive(st, st1, st2);
    CalmAt(st, st2, id);
    if id in st2.rooms {
      PlaceSources(st2, sel, s, id);
    } else if id in Place(st2, sel, s).state.rooms {
      PlaceAdds(st2, sel, s, id);
    }
  }

  lemma PlaceAdds(st: State, sel: nat, s: Search, id: nat)
    requires TableKeyed(st) && id !in st.rooms && id in Place(st, sel, s).state.rooms
    ensures id == st.ids + 1
  {
    hide Greedy, Expected;
    if sel in st.rooms { SeatSame(st.rooms[sel], s); }
  }
}
