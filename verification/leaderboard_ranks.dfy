/** Reading a board: ranks and pages (ctr_stats.go), and the store itself. */
module LeaderboardRanks {
  import opened Common
  import opened Leaderboard

  /** The order of a board: higher score first, then lower account. */
  predicate Before(a: Row, b: Row) { a.score > b.score || (a.score == b.score && a.pid < b.pid) }

  /** Every row of the board once, in order; a row's rank is its place, from 1. */
  ghost predicate Ranking(board: Board, rs: seq<Row>) {
    && (forall i, j :: 0 <= i < j < |rs| ==> Before(rs[i], rs[j]))
    && (forall r :: r in rs <==> r.pid in board && board[r.pid] == r)
  }

  lemma HeadsAgree(a: seq<Row>, b: seq<Row>)
    requires a != [] && b != [] && a[0] in b && b[0] in a
    requires forall i :: 0 < i < |a| ==> Before(a[0], a[i])
    requires forall i :: 0 < i < |b| ==> Before(b[0], b[i])
    ensures a[0] == b[0]
  {
  }

  /** The order is total and the rows are given, so a board has one ranking only. */
  lemma {:induction false} RankingIsUnique(board: Board, a: seq<Row>, b: seq<Row>)
    requires Ranking(board, a) && Ranking(board, b)
    ensures a == b
    decreases |a|
  {
    assert forall r :: r in b <==> r in a;
    assert |b| > 0 ==> b[0] in b;
    if a != [] {
      assert a[0] in a;
      HeadsAgree(a, b);
      var rest := board - {a[0].pid};
      RestIsRanked(board, a);
      RestIsRanked(board, b);
      RankingIsUnique(rest, a[1..], b[1..]);
      assert a == [a[0]] + a[1..] && b == [b[0]] + b[1..];
    }
  }

  lemma RestIsRanked(board: Board, a: seq<Row>)
    requires Ranking(board, a) && a != []
    ensures Ranking(board - {a[0].pid}, a[1..])
  {
    var rest := board - {a[0].pid};
    forall r ensures r in a[1..] <==> r.pid in rest && rest[r.pid] == r {
      assert a[0] in a;
      if r in a[1..] {
        var i :| 0 <= i < |a| - 1 && a[1..][i] == r;
        assert a[i+1] == r && r in a && Before(a[0], a[i+1]);
      }
      if r.pid in rest && rest[r.pid] == r {
        assert r in a;
        var i :| 0 <= i < |a| && a[i] == r;
        assert i != 0 && a[1..][i-1] == r;
      }
    }
  }

  // ---------- pages ----------

  /** The rows ranked `start` or later, at most `limit` of them; rank 0 means the first. */
  function Page(rs: seq<Row>, start: nat, limit: nat): seq<Row> {
    var from := if start == 0 then 0 else if start - 1 > |rs| then |rs| else start - 1;
    rs[from..if from + limit > |rs| then |rs| else from + limit]
  }

  /** Page after page of a fixed size from a rank on. */
  function Pages(rs: seq<Row>, start: nat, size: nat): seq<Row>
    requires start > 0 && size > 0
    decreases |rs| + size - start
  {
    if start > |rs| then [] else Page(rs, start, size) + Pages(rs, start + size, size)
  }

  /** Consecutive pages tile the board from the first one asked for: nothing twice, nothing missed. */
  lemma {:induction false} PagesTile(rs: seq<Row>, start: nat, size: nat)
    requires 0 < start <= |rs| + 1 && size > 0
    ensures Pages(rs, start, size) == rs[start-1..]
    decreases |rs| - start
  {
    hide *;
    FirstPage(rs, start, size);
    if start + size <= |rs| {
      PagesTile(rs, start + size, size);
      TwoPages(rs, start - 1, size);
    } else if start <= |rs| {
      FirstPage(rs, start + size, size);
    }
  }

  lemma FirstPage(rs: seq<Row>, start: nat, size: nat)
    requires start > 0 && size > 0
    ensures Pages(rs, start, size) == if start > |rs| then [] else Page(rs, start, size) + Pages(rs, start + size, size)
    ensures start <= |rs| ==> Page(rs, start, size) == rs[start-1..if start - 1 + size > |rs| then |rs| else start - 1 + size]
  {
  }

  lemma TwoPages(rs: seq<Row>, from: nat, size: nat)
    requires from + size <= |rs|
    ensures rs[from..from+size] + rs[from+size..] == rs[from..]
  {
  }

  lemma PageGrows(rs: seq<Row>, i: nat, start: nat, limit: nat)
    requires i < |rs| && start > 0
    ensures Page(rs[..i+1], start, limit)
      == Page(rs[..i], start, limit) + if i + 1 >= start && |Page(rs[..i], start, limit)| < limit then [rs[i]] else []
  {
  }

  /** The server's loop over the ranked rows. */
  method PageOf(rs: seq<Row>, start: nat, limit: nat) returns (rows: seq<Row>)
    ensures rows == Page(rs, start, limit)
  {
    var first := if start == 0 then 1 else start;
    rows := [];
    var i := 0;
    while i < |rs|
      invariant i <= |rs| && rows == Page(rs[..i], first, limit)
    {
      PageGrows(rs, i, first, limit);
      if i + 1 >= first && |rows| < limit { rows := rows + [rs[i]]; }
      i := i + 1;
    }
    assert rs[..i] == rs;
  }

  // ---------- the store ----------

  class StatsStore {
    var rows: Boards

    /** Every row is stored under its own board and account. */
    predicate Valid()
      reads this
    {
      Filed(rows)
    }

    constructor ()
      ensures Valid() && rows == map[]
    {
      rows := map[];
    }

    /** Work on a copy of the file, then replace it, or leave it as it is. */
    method Write(ws: seq<Write>, saved: bool) returns (ok: bool)
      modifies this
      ensures (rows, ok) == Stored(old(rows), ws, saved)
      ensures old(Valid()) ==> Valid()
    {
      if Valid() { BatchKeepsFiled(rows, ws); }
      var all: Boards := rows;
      var i := 0;
      while i < |ws|
        invariant i <= |ws| && rows == old(rows)
        invariant ApplyAll(rows, ws) == ApplyAll(all, ws[i..])
      {
        var w := ws[i];
        assert ws[i..][1..] == ws[i+1..];
        var board := On(all, w.row.board);
        var was: Score := if w.row.pid in board then board[w.row.pid].score else 0;
        var next := w.row;
        if w.op == 1 {
          if (w.row.score > 0 && was > MAX_I64 - w.row.score) || (w.row.score < 0 && was < MIN_I64 - w.row.score) {
            return false;
          }
          next := next.(score := w.row.score + was);
        }
        if w.op == 4 && w.row.pid in board && was >= w.row.score {
          assert board[w.row.pid := board[w.row.pid]] == board && all[w.row.board := board] == all;
        } else {
          all := all[w.row.board := board[w.row.pid := next]];
        }
        i := i + 1;
      }
      ok := saved;
      if saved { rows := all; }
    }

    /** One client report: read it all, then store it all. */
    method Report(c: Call) returns (ok: bool)
      modifies this
      ensures (rows, ok) == Submit(old(rows), c)
      ensures old(Valid()) ==> Valid()
    {
      var ws := ParseWrites(c.payload, c.pid, c.name, c.now);
      if ws.None? { return false; }
      ok := Write(ws.value, c.saved);
    }

    /** The rows of a board in order. Each goes to its place among those already there. Of a file
        whose rows are not stored under their own accounts, too, every row appears once. */
    method Read(board: nat) returns (rs: seq<Row>)
      ensures InOrder(rs) && Listed(On(rows, board), rs)
      ensures Valid() ==> Ranking(On(rows, board), rs)
    {
      rs := Sort(On(rows, board));
      assert Valid() ==> FiledBoard(On(rows, board));
    }
  }

  predicate FiledBoard(board: Board) { forall p :: p in board ==> board[p].pid == p }

  method Sort(all: Board) returns (rs: seq<Row>)
    ensures InOrder(rs) && Listed(all, rs) && (FiledBoard(all) ==> Ranking(all, rs))
  {
    hide *;
    var left := all.Keys;
    ghost var ks: seq<nat> := [];
    rs := [];
    NothingListed(all);
    while left != {}
      invariant left <= all.Keys && Lists(all - left, ks, rs) && InOrder(rs) && |ks| == |rs|
      decreases |left|
    {
      var pid :| pid in left;
      var at := Place(rs, all[pid]);
      InsertKeepsOrder(rs, at, all[pid]);
      InsertLists(all - left, ks, rs, at, pid, all[pid]);
      Listing(all, left, pid);
      left := left - {pid};
      ks := ks[..at] + [pid] + ks[at..];
      rs := rs[..at] + [all[pid]] + rs[at..];
    }
    assert all - left == all;
    FiledRanking(all, ks, rs);
  }

  lemma Listing(all: Board, left: set<nat>, pid: nat)
    requires pid in left && left <= all.Keys
    ensures (all - left)[pid := all[pid]] == all - (left - {pid})
  {
  }

  /** Where a row goes among rows in order. */
  method Place(rs: seq<Row>, r: Row) returns (at: nat)
    ensures at <= |rs| && (at < |rs| ==> !Before(rs[at], r)) && forall i :: 0 <= i < at ==> Before(rs[i], r)
  {
    at := 0;
    while at < |rs| && Before(rs[at], r)
      invariant at <= |rs| && forall i :: 0 <= i < at ==> Before(rs[i], r)
    {
      at := at + 1;
    }
  }

  ghost predicate InOrder(rs: seq<Row>) { forall i, j :: 0 <= i < j < |rs| ==> !Before(rs[j], rs[i]) }

  /** `rs` are the rows of the board, one for each account it has an entry for, as `ks` lists them. */
  ghost predicate Lists(board: Board, ks: seq<nat>, rs: seq<Row>) {
    && Apart(ks) && (forall p :: p in ks <==> p in board) && RowsOf(board, ks, rs)
  }

  ghost predicate Apart(ks: seq<nat>) { forall i, j :: 0 <= i < j < |ks| ==> ks[i] != ks[j] }

  ghost predicate RowsOf(board: Board, ks: seq<nat>, rs: seq<Row>) {
    |ks| == |rs| && forall i :: 0 <= i < |rs| ==> ks[i] in board && rs[i] == board[ks[i]]
  }

  ghost predicate Listed(board: Board, rs: seq<Row>) { exists ks :: Lists(board, ks, rs) }

  lemma NothingListed(all: Board)
    ensures Lists(all - all.Keys, [], []) && InOrder([])
  {
  }

  lemma InsertKeepsOrder(rs: seq<Row>, at: nat, r: Row)
    requires InOrder(rs) && at <= |rs|
    requires forall i :: 0 <= i < at ==> Before(rs[i], r)
    requires at < |rs| ==> !Before(rs[at], r)
    ensures InOrder(rs[..at] + [r] + rs[at..])
  {
    forall i | at <= i < |rs| ensures !Before(rs[i], r) {
      if i > at { assert !Before(rs[i], rs[at]); }
    }
  }

  lemma InsertLists(board: Board, ks: seq<nat>, rs: seq<Row>, at: nat, pid: nat, r: Row)
    requires Lists(board, ks, rs) && at <= |rs| && pid !in board
    ensures Lists(board[pid := r], ks[..at] + [pid] + ks[at..], rs[..at] + [r] + rs[at..])
  {
    assert |ks| == |rs|;
    Inserted(ks, at, pid);
    InsertedApart(ks, at, pid);
    InsertedRows(board, ks, rs, at, pid, r);
    hide Apart, RowsOf;
  }

  lemma InsertedApart(ks: seq<nat>, at: nat, pid: nat)
    requires Apart(ks) && at <= |ks| && pid !in ks
    ensures Apart(ks[..at] + [pid] + ks[at..])
  {
    var ks' := ks[..at] + [pid] + ks[at..];
    forall i, j | 0 <= i < j < |ks'| ensures ks'[i] != ks'[j] {
      assert i != at ==> ks'[i] == ks[if i < at then i else i - 1];
      assert j != at ==> ks'[j] == ks[if j < at then j else j - 1];
    }
  }

  lemma InsertedRows(board: Board, ks: seq<nat>, rs: seq<Row>, at: nat, pid: nat, r: Row)
    requires RowsOf(board, ks, rs) && at <= |rs| && pid !in board
    ensures RowsOf(board[pid := r], ks[..at] + [pid] + ks[at..], rs[..at] + [r] + rs[at..])
  {
    var ks', rs' := ks[..at] + [pid] + ks[at..], rs[..at] + [r] + rs[at..];
    forall i | 0 <= i < |rs'| ensures ks'[i] in board[pid := r] && rs'[i] == board[pid := r][ks'[i]] {
      if i != at {
        var k := if i < at then i else i - 1;
        assert ks'[i] == ks[k] && rs'[i] == rs[k];
      }
    }
  }

  lemma Inserted(ks: seq<nat>, at: nat, pid: nat)
    requires at <= |ks|
    ensures forall p :: p in ks[..at] + [pid] + ks[at..] <==> p in ks || p == pid
  {
    assert ks == ks[..at] + ks[at..];
  }

  /** Where rows are stored under their own accounts, that is the board's one ranking. */
  lemma FiledRanking(board: Board, ks: seq<nat>, rs: seq<Row>)
    requires Lists(board, ks, rs) && InOrder(rs)
    ensures Listed(board, rs)
    ensures FiledBoard(board) ==> Ranking(board, rs)
  {
    if FiledBoard(board) {
      forall i, j | 0 <= i < j < |rs| ensures Before(rs[i], rs[j]) { assert ks[i] != ks[j]; }
      forall r ensures r in rs <==> r.pid in board && board[r.pid] == r {
        if r.pid in board && board[r.pid] == r {
          assert r.pid in ks;
          var i :| 0 <= i < |ks| && ks[i] == r.pid;
          assert rs[i] == r;
        }
      }
    }
  }
}
