/** What the stored scores are, told from the submissions themselves (ctr_stats.go:43-141). */
module LeaderboardSums {
  import opened Common
  import opened Leaderboard

  // ---------- one submission ----------

  /** A request with one submission is accepted exactly when it is about the caller's own row and either
      replaces, adds or keeps the best on an ordinary board, or keeps the best on a ring board with a
      score of at least 0, or on a time board with a score of 1 to 4294967295. */
  lemma OneSubmission(s: Submission, end: Bytes, pid: nat, name: string, now: nat)
    requires Sendable(s) && (end == [] || end == [0])
    ensures var time := 1001 <= s.board <= 1158;
      var ring := 89 <= s.board <= 133 && s.board != 100;
      var acceptable := s.entity == pid && pid != 0 &&
        (if time then s.op == 4 && 1 <= s.score <= 4294967295
         else if ring then s.op == 4 && 0 <= s.score
         else s.op == 0 || s.op == 1 || s.op == 4);
      ParseStatWrites(PrintSubmission(s) + end, pid, name, now) ==
        if acceptable then Some([Write(Row(s.board, pid, s.score, s.driver, name, now), s.op)]) else None
  {
    ReadsWhatWasSent([s], end, pid, name, now);
    OnePrinted(s);
    OneParsed(s, pid, name, now);
    hide PrintSubmission, PrintAll, ParseStatWrites, ParseFrom;
  }

  lemma OnePrinted(s: Submission)
    ensures PrintAll([s]) == PrintSubmission(s)
  {
    hide PrintSubmission;
    assert [s][1..] == [];
    assert PrintSubmission(s) + [] == PrintSubmission(s);
  }

  lemma OneParsed(s: Submission, pid: nat, name: string, now: nat)
    ensures var w := ParseWrite(s, pid, name, now);
      ParseFrom([s], pid, name, now) == if w.Some? then Some([w.value]) else None
  {
    hide ParseWrite;
    assert [s][1..] == [];
    var w, none := ParseWrite(s, pid, name, now), ParseFrom([s][1..], pid, name, now);
    assert none == Some([]);
    if w.Some? { assert [w.value] + none.value == [w.value]; }
  }

  // ---------- all submissions to one row ----------

  /** The writes of one batch to the account's row of the board, in order. */
  function Own(ws: seq<Write>, board: nat, pid: nat): seq<Write> {
    if ws == [] then []
    else (if ws[0].row.board == board && ws[0].row.pid == pid then [ws[0]] else []) + Own(ws[1..], board, pid)
  }

  /** The same over a history, counting the calls that were accepted. */
  function Trail(rows: Boards, calls: seq<Call>, board: nat, pid: nat): seq<Write>
    decreases |calls|
  {
    if calls == [] then []
    else
      var c := calls[0];
      var (after, ok) := Submit(rows, c);
      var ws := ParseStatWrites(c.payload, c.pid, c.name, c.now);
      (if ok && ws.Some? then Own(ws.value, board, pid) else []) + Trail(after, calls[1..], board, pid)
  }

  function Sum(ws: seq<Write>): int { if ws == [] then 0 else Sum(ws[..|ws|-1]) + ws[|ws|-1].row.score }

  /** `row` came about from `prior` by the writes `ws`, each accepted in its turn. */
  predicate Leads(prior: Option<Row>, ws: seq<Write>, row: Option<Row>)
    decreases |ws|
  {
    if ws == [] then row == prior else Next(prior, ws[0]).Some? && Leads(Next(prior, ws[0]), ws[1..], row)
  }

  lemma {:induction false} LeadsConcat(prior: Option<Row>, a: seq<Write>, mid: Option<Row>, b: seq<Write>, row: Option<Row>)
    requires Leads(prior, a, mid) && Leads(mid, b, row)
    ensures Leads(prior, a + b, row)
    decreases |a|
  {
    if a == [] { assert a + b == b; } else {
      assert (a + b)[1..] == a[1..] + b;
      LeadsConcat(Next(prior, a[0]), a[1..], mid, b, row);
    }
  }

  /** The row before the last write, and what the last write made of it. */
  lemma {:induction false} LeadsLast(prior: Option<Row>, ws: seq<Write>, row: Option<Row>) returns (mid: Option<Row>)
    requires ws != [] && Leads(prior, ws, row)
    ensures Leads(prior, ws[..|ws|-1], mid) && row == Next(mid, ws[|ws|-1]) && row.Some?
    decreases |ws|
  {
    if |ws| == 1 {
      mid := prior;
    } else {
      mid := LeadsLast(Next(prior, ws[0]), ws[1..], row);
      assert ws[1..][..|ws|-2] == ws[..|ws|-1][1..];
    }
  }

  lemma {:induction false} BatchLeads(rows: Boards, ws: seq<Write>, board: nat, pid: nat)
    requires ApplyAll(rows, ws).Some?
    ensures Leads(Found(rows, board, pid), Own(ws, board, pid), Found(ApplyAll(rows, ws).value, board, pid))
    decreases |ws|
  {
    if ws != [] {
      var w, rest := ws[0], Own(ws[1..], board, pid);
      OneRow(rows, w, board, pid);
      BatchLeads(Apply(rows, w).value, ws[1..], board, pid);
      hide Next, Found;
      if w.row.board == board && w.row.pid == pid {
        assert ([w] + rest)[1..] == rest;
      } else {
        assert [] + rest == rest;
      }
    }
  }

  lemma {:induction false} HistoryLeads(rows: Boards, calls: seq<Call>, board: nat, pid: nat)
    ensures Leads(Found(rows, board, pid), Trail(rows, calls, board, pid), Found(History(rows, calls), board, pid))
    decreases |calls|
  {
    if calls != [] {
      var c := calls[0];
      var (after, ok) := Submit(rows, c);
      var ws := ParseStatWrites(c.payload, c.pid, c.name, c.now);
      var own := if ok && ws.Some? then Own(ws.value, board, pid) else [];
      if ok { BatchLeads(rows, ws.value, board, pid); }
      HistoryLeads(after, calls[1..], board, pid);
      hide ParseStatWrites, Next, Found, ApplyAll;
      LeadsConcat(Found(rows, board, pid), own, Found(after, board, pid), Trail(after, calls[1..], board, pid),
        Found(History(rows, calls), board, pid));
    }
  }

  // ---------- replacing, adding, keeping the best ----------

  /** Every write from `from` on adds. */
  predicate Adds(ws: seq<Write>, from: nat) { forall i :: from <= i < |ws| ==> ws[i].op == 1 }

  lemma {:induction false} AddedUp(prior: Option<Row>, ws: seq<Write>, row: Option<Row>)
    requires Leads(prior, ws, row) && Adds(ws, 0) && ws != []
    ensures row.Some? && row.value.score == (if prior.Some? then prior.value.score else 0) + Sum(ws)
    ensures row.value.(score := 0) == ws[|ws|-1].row.(score := 0)
    decreases |ws|
  {
    var front, w := ws[..|ws|-1], ws[|ws|-1];
    var mid := LeadsLast(prior, ws, row);
    if front != [] { AddedUp(prior, front, mid); }
  }

  lemma {:induction false} LeadsSplit(prior: Option<Row>, ws: seq<Write>, row: Option<Row>, k: nat) returns (mid: Option<Row>)
    requires Leads(prior, ws, row) && k <= |ws|
    ensures Leads(prior, ws[..k], mid) && Leads(mid, ws[k..], row)
    decreases |ws|
  {
    if k == 0 {
      mid := prior;
      assert ws[k..] == ws;
    } else {
      mid := LeadsSplit(Next(prior, ws[0]), ws[1..], row, k - 1);
      assert ws[1..][..k-1] == ws[..k][1..] && ws[1..][k-1..] == ws[k..];
    }
  }

  /** Over every history of accepted, refused and failed calls by anyone: once the account's k-th
      accepted write replaced its row and all later ones added, the stored score is the one that
      replacement sent plus everything added since. The rest of the row is the last write's, so a
      replacement that was last stands exactly as it was sent. */
  lemma ReplacedThenAdded(rows: Boards, calls: seq<Call>, board: nat, pid: nat, k: nat)
    requires var trail := Trail(rows, calls, board, pid); k < |trail| && trail[k].op == 0 && Adds(trail, k + 1)
    ensures var trail := Trail(rows, calls, board, pid);
      var row := Found(History(rows, calls), board, pid);
      && row.Some? && row.value.score == trail[k].row.score + Sum(trail[k+1..])
      && row.value.(score := 0) == trail[|trail|-1].row.(score := 0)
  {
    hide *;
    var trail, row := Trail(rows, calls, board, pid), Found(History(rows, calls), board, pid);
    HistoryLeads(rows, calls, board, pid);
    var mid := LeadsSplit(Found(rows, board, pid), trail, row, k);
    SinceReplaced(mid, trail, row, k);
  }

  lemma SinceReplaced(mid: Option<Row>, trail: seq<Write>, row: Option<Row>, k: nat)
    requires k < |trail| && Leads(mid, trail[k..], row) && trail[k].op == 0 && Adds(trail, k + 1)
    ensures row.Some? && row.value.score == trail[k].row.score + Sum(trail[k+1..])
    ensures row.value.(score := 0) == trail[|trail|-1].row.(score := 0)
  {
    assert trail[k..][1..] == trail[k+1..] && trail[k..][0] == trail[k];
    assert Next(mid, trail[k]) == Some(trail[k].row);
    var rest := trail[k+1..];
    forall i | 0 <= i < |rest| ensures rest[i].op == 1 { assert rest[i] == trail[k+1+i]; }
    if rest != [] {
      AddedUp(Some(trail[k].row), rest, row);
      assert rest[|rest|-1] == trail[|trail|-1];
    }
  }

  /** An account that only ever added, from nothing, has the sum of what it added. */
  lemma OnlyAdded(rows: Boards, calls: seq<Call>, board: nat, pid: nat)
    requires Found(rows, board, pid) == None && Adds(Trail(rows, calls, board, pid), 0)
    ensures var row := Found(History(rows, calls), board, pid);
      var trail := Trail(rows, calls, board, pid);
      if trail == [] then row == None else row.Some? && row.value.score == Sum(trail)
  {
    HistoryLeads(rows, calls, board, pid);
    var trail := Trail(rows, calls, board, pid);
    hide Trail, History, Found;
    if trail != [] { AddedUp(None, trail, Found(History(rows, calls), board, pid)); }
  }

  /** What one accepted write makes of a row, whatever the board holds. A replacement leaves the row
      sent, an addition the row sent with both scores added, and "keep the best" the row sent if it is
      the first or scores higher. An addition that leaves 64 bits, and a file that cannot be replaced,
      change nothing. */
  lemma OneWrite(rows: Boards, c: Call, w: Write)
    requires ParseStatWrites(c.payload, c.pid, c.name, c.now) == Some([w])
    ensures var was := Found(rows, w.row.board, w.row.pid);
      var (after, ok) := Submit(rows, c);
      var row := Found(after, w.row.board, w.row.pid);
      var sum := w.row.score + if was.Some? then was.value.score else 0;
      && (ok <==> c.saved && (w.op == 1 ==> -0x8000_0000_0000_0000 <= sum <= 0x7fff_ffff_ffff_ffff))
      && (!ok ==> after == rows)
      && (ok && w.op == 0 ==> row == Some(w.row))
      && (ok && w.op == 1 ==> row == Some(w.row.(score := sum)))
      && (w.op == 4 && was.Some? && was.value.score >= w.row.score ==> row == was)
      && (ok && w.op == 4 && (was.None? || was.value.score < w.row.score) ==> row == Some(w.row))
  {
    OneApplied(rows, w);
    hide ParseStatWrites;
  }

  lemma OneApplied(rows: Boards, w: Write)
    ensures ApplyAll(rows, [w]) == Apply(rows, w)
  {
    assert [w][1..] == [];
    hide Apply;
  }
}
