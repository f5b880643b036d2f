/** Leaderboards: what a client may submit, what is stored, and how it is read back
    (ctr_stats.go). Rows are stored by board and account. */
module Leaderboard {
  import opened Common

  const MAX_I64 := 0x7fff_ffff_ffff_ffff
  const MIN_I64 := -0x8000_0000_0000_0000
  const MAX_U32 := 0xffff_ffff
  const BATCH := 128

  type Score = x: int | MIN_I64 <= x <= MAX_I64

  /** One submission as sent. The driver goes with it only on time and ring boards. */
  datatype Submission = Submission(board: nat, entity: nat, op: nat, score: Score, driver: nat)

  datatype Row = Row(board: nat, pid: nat, score: Score, driver: nat, name: string, updated: nat)
  datatype Write = Write(row: Row, op: nat)

  type Board = map<nat, Row>
  type Boards = map<nat, Board>

  predicate TimeBoard(board: nat) { 1000 < board < 1159 }
  predicate RingBoard(board: nat) { 89 <= board <= 133 && board != 100 }
  predicate OctaneBoard(board: nat) { TimeBoard(board) || RingBoard(board) }

  // ---------- what is accepted ----------

  function ParseWrite(s: Submission, pid: nat, name: string, now: nat): Option<Write> {
    if s.entity != pid || pid == 0 || (s.op != 0 && s.op != 1 && s.op != 4) then None
    else if !OctaneBoard(s.board) then Some(Write(Row(s.board, pid, s.score, 0, name, now), s.op))
    else if s.op != 4 || s.score < 0 || (TimeBoard(s.board) && (s.score == 0 || s.score > MAX_U32)) then None
    else Some(Write(Row(s.board, pid, s.score, s.driver, name, now), s.op))
  }

  // ---------- on the wire ----------

  /** A tagged little-endian integer at `i`, and where it ends. */
  function Tagged(b: Bytes, i: nat, tag: Byte, width: nat): Option<(nat, nat)> {
    if i + 1 + width > |b| || b[i] != tag then None else Some((LittleAt(b, i + 1, width), i + 1 + width))
  }

  function Signed(n: nat): int { if n > MAX_I64 then n - U64 else n }

  /** One submission at `i`, and where it ends. */
  function ReadSubmission(b: Bytes, i: nat): (r: Option<(Submission, nat)>)
    ensures r.Some? ==> i < r.value.1 <= |b|
  {
    var board := Tagged(b, i, TAG_U32, 4);
    if board.None? then None else
      var entity := Tagged(b, board.value.1, TAG_U64, 8);
      if entity.None? then None else
        var op := Tagged(b, entity.value.1, TAG_U8, 1);
        if op.None? then None else
          var score := Tagged(b, op.value.1, TAG_I64, 8);
          if score.None? then None else
            WordFits(b, op.value.1 + 1);
            var s := Submission(board.value.0, entity.value.0, op.value.0, Signed(score.value.0), 0);
            if !OctaneBoard(s.board) then Some((s, score.value.1)) else
              var driver := Tagged(b, score.value.1, TAG_U32, 4);
              if driver.None? then None else Some((s.(driver := driver.value.0), driver.value.1))
  }

  lemma {:induction false} LittleFits(b: Bytes, i: nat, width: nat)
    requires i + width <= |b|
    ensures LittleAt(b, i, width) < Power256(width)
    decreases width
  {
    if width > 0 { LittleFits(b, i + 1, width - 1); }
  }

  lemma WordFits(b: Bytes, i: nat)
    requires i + 8 <= |b|
    ensures LittleAt(b, i, 8) < U64
  {
    LittleFits(b, i, 8);
    assert Power256(8) == U64 by { assert Power256(4) == 0x1_0000_0000 && Power256(6) == 65536 * Power256(4); }
  }

  /** Requests end with a zero byte, which some clients leave out. */
  predicate AtEnd(b: Bytes, i: nat) { i >= |b| || (i + 1 == |b| && b[i] == 0) }

  function WritesFrom(b: Bytes, i: nat, pid: nat, name: string, now: nat): Option<seq<Write>>
    decreases |b| - i
  {
    if AtEnd(b, i) then Some([]) else
      var s := ReadSubmission(b, i);
      if s.None? then None else
        Chain(ParseWrite(s.value.0, pid, name, now), WritesFrom(b, s.value.1, pid, name, now))
  }

  function Chain(first: Option<Write>, rest: Option<seq<Write>>): Option<seq<Write>> {
    if first.None? || rest.None? then None else Some([first.value] + rest.value)
  }

  function ParseStatWrites(b: Bytes, pid: nat, name: string, now: nat): Option<seq<Write>> {
    var ws := WritesFrom(b, 0, pid, name, now);
    if ws.None? || |ws.value| == 0 || |ws.value| > BATCH then None else ws
  }

  // ---------- parsing undoes printing ----------

  function Unsigned(score: Score): nat { if score < 0 then score + U64 else score }

  function PrintSubmission(s: Submission): Bytes {
    [TAG_U32] + LittleEndian(s.board, 4) + ([TAG_U64] + LittleEndian(s.entity, 8)) + ([TAG_U8] + LittleEndian(s.op, 1))
      + ([TAG_I64] + LittleEndian(Unsigned(s.score), 8))
      + if OctaneBoard(s.board) then [TAG_U32] + LittleEndian(s.driver, 4) else []
  }

  function PrintAll(subs: seq<Submission>): Bytes {
    if subs == [] then [] else PrintSubmission(subs[0]) + PrintAll(subs[1..])
  }

  /** The numbers fit their fields; no driver is given where none is sent. */
  predicate Sendable(s: Submission) {
    && s.board < Power256(4) && s.entity < Power256(8) && s.op < Power256(1) && s.driver < Power256(4)
    && (!OctaneBoard(s.board) ==> s.driver == 0)
  }

  lemma TaggedReads(pre: Bytes, tag: Byte, n: nat, width: nat, post: Bytes)
    requires n < Power256(width)
    ensures Tagged(pre + ([tag] + LittleEndian(n, width)) + post, |pre|, tag, width) == Some((n, |pre| + 1 + width))
  {
    LittleRoundTrip(pre + [tag], n, width, post);
    assert pre + ([tag] + LittleEndian(n, width)) + post == (pre + [tag]) + LittleEndian(n, width) + post;
  }

  lemma UnsignedFits(score: Score)
    ensures Unsigned(score) < Power256(8) && Signed(Unsigned(score)) == score
  {
    assert Power256(4) == 0x1_0000_0000 && Power256(6) == 65536 * Power256(4);
  }

  lemma SubmissionReads(pre: Bytes, s: Submission, post: Bytes)
    requires Sendable(s)
    ensures ReadSubmission(pre + PrintSubmission(s) + post, |pre|) == Some((s, |pre| + |PrintSubmission(s)|))
    ensures |PrintSubmission(s)| > 1
  {
    UnsignedFits(s.score);
    var f1 := [TAG_U32] + LittleEndian(s.board, 4);
    var f2 := [TAG_U64] + LittleEndian(s.entity, 8);
    var f3 := [TAG_U8] + LittleEndian(s.op, 1);
    var f4 := [TAG_I64] + LittleEndian(Unsigned(s.score), 8);
    var f5 := if OctaneBoard(s.board) then [TAG_U32] + LittleEndian(s.driver, 4) else [];
    var b := pre + PrintSubmission(s) + post;
    TaggedReads(pre, TAG_U32, s.board, 4, f2 + f3 + f4 + f5 + post);
    TaggedReads(pre + f1, TAG_U64, s.entity, 8, f3 + f4 + f5 + post);
    TaggedReads(pre + f1 + f2, TAG_U8, s.op, 1, f4 + f5 + post);
    TaggedReads(pre + f1 + f2 + f3, TAG_I64, Unsigned(s.score), 8, f5 + post);
    if OctaneBoard(s.board) { TaggedReads(pre + f1 + f2 + f3 + f4, TAG_U32, s.driver, 4, post); }
    hide Tagged, LittleEndian, Signed, Unsigned, Power256;
    Regroup(pre, f1, f2, f3, f4, f5, post);
  }

  lemma Regroup(pre: Bytes, f1: Bytes, f2: Bytes, f3: Bytes, f4: Bytes, f5: Bytes, post: Bytes)
    ensures var b := pre + (f1 + f2 + f3 + f4 + f5) + post;
      && b == pre + f1 + (f2 + f3 + f4 + f5 + post) && b == (pre + f1) + f2 + (f3 + f4 + f5 + post)
      && b == (pre + f1 + f2) + f3 + (f4 + f5 + post) && b == (pre + f1 + f2 + f3) + f4 + (f5 + post)
      && b == (pre + f1 + f2 + f3 + f4) + f5 + post
  {
  }

  /** What a list of submissions amounts to, one by one. */
  function ParseFrom(subs: seq<Submission>, pid: nat, name: string, now: nat): Option<seq<Write>> {
    if subs == [] then Some([])
    else Chain(ParseWrite(subs[0], pid, name, now), ParseFrom(subs[1..], pid, name, now))
  }

  lemma {:induction false} WritesFromPrint(pre: Bytes, subs: seq<Submission>, end: Bytes, pid: nat, name: string, now: nat)
    requires (forall s :: s in subs ==> Sendable(s)) && (end == [] || end == [0])
    ensures WritesFrom(pre + PrintAll(subs) + end, |pre|, pid, name, now) == ParseFrom(subs, pid, name, now)
    decreases |subs|
  {
    hide PrintSubmission, ReadSubmission, ParseWrite, Sendable, PrintAll;
    if subs == [] {
      NothingPrinted(pre, end);
    } else {
      var s, rest := subs[0], subs[1..];
      SubmissionReads(pre, s, PrintAll(rest) + end);
      PrintFirst(pre, subs, end);
      WritesFromPrint(pre + PrintSubmission(s), rest, end, pid, name, now);
    }
  }

  lemma NothingPrinted(pre: Bytes, end: Bytes)
    ensures pre + PrintAll([]) + end == pre + end
  {
  }

  lemma PrintFirst(pre: Bytes, subs: seq<Submission>, end: Bytes)
    requires subs != []
    ensures var b := pre + PrintAll(subs) + end;
      && b == pre + PrintSubmission(subs[0]) + (PrintAll(subs[1..]) + end)
      && b == (pre + PrintSubmission(subs[0])) + PrintAll(subs[1..]) + end
  {
    hide PrintSubmission;
  }

  /** The server reads what was sent: a request for these submissions, with or without the final
      zero byte, is accepted exactly if there are 1 to 128 of them and each is acceptable. */
  lemma ReadsWhatWasSent(subs: seq<Submission>, end: Bytes, pid: nat, name: string, now: nat)
    requires (forall s :: s in subs ==> Sendable(s)) && (end == [] || end == [0])
    ensures ParseStatWrites(PrintAll(subs) + end, pid, name, now)
      == if 1 <= |subs| <= 128 then ParseFrom(subs, pid, name, now) else None
  {
    WritesFromPrint([], subs, end, pid, name, now);
    assert [] + PrintAll(subs) + end == PrintAll(subs) + end;
    AsManyWrites(subs, pid, name, now);
  }

  lemma {:induction false} AsManyWrites(subs: seq<Submission>, pid: nat, name: string, now: nat)
    ensures var ws := ParseFrom(subs, pid, name, now);
      && (ws.Some? ==> |ws.value| == |subs|)
      && (ws.Some? <==> forall s :: s in subs ==> ParseWrite(s, pid, name, now).Some?)
  {
    if subs != [] { AsManyWrites(subs[1..], pid, name, now); }
  }

  // ---------- what parsing guarantees ----------

  /** Only the caller's own rows, and on time and ring boards only "keep the best". */
  predicate Proper(w: Write, pid: nat) {
    w.row.pid == pid && pid != 0 && w.op in {0, 1, 4} && (OctaneBoard(w.row.board) ==> w.op == 4 && w.row.score >= 0)
  }

  lemma {:induction false} WritesAreProper(b: Bytes, i: nat, pid: nat, name: string, now: nat)
    ensures var ws := WritesFrom(b, i, pid, name, now); ws.Some? ==> forall w :: w in ws.value ==> Proper(w, pid)
    decreases |b| - i
  {
    if !AtEnd(b, i) && ReadSubmission(b, i).Some? {
      WritesAreProper(b, ReadSubmission(b, i).value.1, pid, name, now);
      hide ReadSubmission;
    }
  }

  /** Whatever the bytes, an accepted batch has 1 to 128 writes, all of them proper. */
  lemma ParsedAreProper(b: Bytes, pid: nat, name: string, now: nat)
    ensures var ws := ParseStatWrites(b, pid, name, now);
      ws.Some? ==> 1 <= |ws.value| <= 128 && forall w :: w in ws.value ==> Proper(w, pid)
  {
    WritesAreProper(b, 0, pid, name, now);
  }

  // ---------- the parsing loop ----------

  /** How parsing goes on after the writes in `done`. */
  function Rest(b: Bytes, i: nat, done: seq<Write>, pid: nat, name: string, now: nat): Option<seq<Write>> {
    var rest := WritesFrom(b, i, pid, name, now);
    if rest.None? then None else Some(done + rest.value)
  }

  lemma RestStep(b: Bytes, i: nat, done: seq<Write>, pid: nat, name: string, now: nat)
    ensures AtEnd(b, i) ==> Rest(b, i, done, pid, name, now) == Some(done)
    ensures !AtEnd(b, i) ==>
      var s := ReadSubmission(b, i);
      if s.None? || ParseWrite(s.value.0, pid, name, now).None? then Rest(b, i, done, pid, name, now) == None
      else Rest(b, i, done, pid, name, now) == Rest(b, s.value.1, done + [ParseWrite(s.value.0, pid, name, now).value], pid, name, now)
    ensures !AtEnd(b, i) ==> Rest(b, i, done, pid, name, now).None? || |Rest(b, i, done, pid, name, now).value| > |done|
  {
    hide ReadSubmission, ParseWrite, AtEnd;
    if AtEnd(b, i) {
      assert done + [] == done;
    } else {
      var s := ReadSubmission(b, i);
      if s.Some? && ParseWrite(s.value.0, pid, name, now).Some? && WritesFrom(b, s.value.1, pid, name, now).Some? {
        var w, rest := ParseWrite(s.value.0, pid, name, now).value, WritesFrom(b, s.value.1, pid, name, now).value;
        assert done + ([w] + rest) == (done + [w]) + rest;
      }
    }
  }

  method ReadTagged(b: Bytes, i: nat, tag: Byte, width: nat) returns (r: Option<(nat, nat)>)
    ensures r == Tagged(b, i, tag, width)
  {
    if i >= |b| || b[i] != tag { return None; }
    if |b| - (i + 1) < width { return None; }
    r := Some((LittleAt(b, i + 1, width), i + 1 + width));
  }

  method ParseWrites(b: Bytes, pid: nat, name: string, now: nat) returns (r: Option<seq<Write>>)
    ensures r == ParseStatWrites(b, pid, name, now)
  {
    var ws: seq<Write> := [];
    var i := 0;
    assert Rest(b, 0, [], pid, name, now) == WritesFrom(b, 0, pid, name, now) by { RestStart(b, pid, name, now); }
    while !AtEnd(b, i)
      invariant i <= |b| && |ws| <= BATCH
      invariant Rest(b, i, ws, pid, name, now) == WritesFrom(b, 0, pid, name, now)
      decreases |b| - i
    {
      RestStep(b, i, ws, pid, name, now);
      if |ws| >= BATCH { return None; }
      hide Rest, WritesFrom;
      var one := ReadOne(b, i);
      if one.None? { return None; }
      var row := ParseWrite(one.value.0, pid, name, now);
      if row.None? { return None; }
      ws, i := ws + [row.value], one.value.1;
    }
    RestStep(b, i, ws, pid, name, now);
    r := if |ws| == 0 then None else Some(ws);
  }

  lemma RestStart(b: Bytes, pid: nat, name: string, now: nat)
    ensures Rest(b, 0, [], pid, name, now) == WritesFrom(b, 0, pid, name, now)
  {
    var ws := WritesFrom(b, 0, pid, name, now);
    if ws.Some? { assert [] + ws.value == ws.value; }
  }

  /** The reads of one submission, in order. */
  method ReadOne(b: Bytes, i: nat) returns (r: Option<(Submission, nat)>)
    ensures r == ReadSubmission(b, i)
  {
    var board := ReadTagged(b, i, TAG_U32, 4);
    if board.None? { return None; }
    var entity := ReadTagged(b, board.value.1, TAG_U64, 8);
    if entity.None? { return None; }
    var op := ReadTagged(b, entity.value.1, TAG_U8, 1);
    if op.None? { return None; }
    var score := ReadTagged(b, op.value.1, TAG_I64, 8);
    if score.None? { return None; }
    WordFits(b, op.value.1 + 1);
    var s := Submission(board.value.0, entity.value.0, op.value.0, Signed(score.value.0), 0);
    if !OctaneBoard(s.board) { return Some((s, score.value.1)); }
    var driver := ReadTagged(b, score.value.1, TAG_U32, 4);
    if driver.None? { return None; }
    r := Some((s.(driver := driver.value.0), driver.value.1));
  }

  // ---------- what is stored ----------

  function On(rows: Boards, board: nat): Board { if board in rows then rows[board] else map[] }

  function Found(rows: Boards, board: nat, pid: nat): Option<Row> {
    if pid in On(rows, board) then Some(On(rows, board)[pid]) else None
  }

  function OldScore(prior: Option<Row>): Score { if prior.None? then 0 else prior.value.score }

  /** The row one write leaves, or None on overflow. */
  function Next(prior: Option<Row>, w: Write): Option<Row> {
    if w.op == 1 then
      var was := OldScore(prior);
      if (w.row.score > 0 && was > MAX_I64 - w.row.score) || (w.row.score < 0 && was < MIN_I64 - w.row.score) then None
      else Some(w.row.(score := w.row.score + was))
    else if w.op == 4 && prior.Some? && prior.value.score >= w.row.score then prior
    else Some(w.row)
  }

  /** An addition is refused exactly when its sum does not fit 64 bits; nothing else is refused. */
  lemma RefusedExactlyOnOverflow(prior: Option<Row>, w: Write)
    ensures Next(prior, w).None? <==> w.op == 1 && !(MIN_I64 <= OldScore(prior) + w.row.score <= MAX_I64)
  {
  }

  function Apply(rows: Boards, w: Write): Option<Boards> {
    var next := Next(Found(rows, w.row.board, w.row.pid), w);
    if next.None? then None
    else Some(rows[w.row.board := On(rows, w.row.board)[w.row.pid := next.value]])
  }

  function ApplyAll(rows: Boards, ws: seq<Write>): Option<Boards>
    decreases |ws|
  {
    if ws == [] then Some(rows)
    else
      var one := Apply(rows, ws[0]);
      if one.None? then None else ApplyAll(one.value, ws[1..])
  }

  /** A batch is stored whole, or nothing of it is. `saved` is whether the file could be replaced. */
  function Stored(rows: Boards, ws: seq<Write>, saved: bool): (Boards, bool) {
    var all := ApplyAll(rows, ws);
    if all.Some? && saved then (all.value, true) else (rows, false)
  }

  /** The k-th write is an addition that overflows on what the writes before it left. */
  predicate Overflows(rows: Boards, ws: seq<Write>, k: nat)
    requires k < |ws|
  {
    var before := ApplyAll(rows, ws[..k]);
    before.Some? && ws[k].op == 1
      && !(MIN_I64 <= OldScore(Found(before.value, ws[k].row.board, ws[k].row.pid)) + ws[k].row.score <= MAX_I64)
  }

  /** A batch is stored exactly when the file can be replaced and no addition in it overflows in
      its turn; otherwise nothing changes. */
  lemma StoredExactlyWhen(rows: Boards, ws: seq<Write>, saved: bool)
    ensures Stored(rows, ws, saved).1 <==> saved && forall k :: 0 <= k < |ws| ==> !Overflows(rows, ws, k)
    ensures !Stored(rows, ws, saved).1 ==> Stored(rows, ws, saved).0 == rows
  {
    AppliesUnlessOverflow(rows, ws);
  }

  lemma {:induction false} AppliesUnlessOverflow(rows: Boards, ws: seq<Write>)
    ensures ApplyAll(rows, ws).Some? <==> forall k :: 0 <= k < |ws| ==> !Overflows(rows, ws, k)
    decreases |ws|
  {
    if ws != [] {
      assert ws[..0] == [];
      RefusedExactlyOnOverflow(Found(rows, ws[0].row.board, ws[0].row.pid), ws[0]);
      var one := Apply(rows, ws[0]);
      if one.None? {
        assert Overflows(rows, ws, 0);
      } else {
        AppliesUnlessOverflow(one.value, ws[1..]);
        assert !Overflows(rows, ws, 0);
        forall k | 0 <= k < |ws[1..]| ensures Overflows(rows, ws, k + 1) == Overflows(one.value, ws[1..], k) {
          assert ws[..k+1][1..] == ws[1..][..k] && ws[..k+1][0] == ws[0];
        }
        assert forall k :: 0 < k < |ws| ==> Overflows(rows, ws, k) == Overflows(one.value, ws[1..], k - 1) by {
          forall k | 0 < k < |ws| ensures Overflows(rows, ws, k) == Overflows(one.value, ws[1..], k - 1) {
            assert k == (k - 1) + 1;
          }
        }
      }
    }
  }

  /** One write changes one row of one board. */
  lemma OneRow(rows: Boards, w: Write, board: nat, pid: nat)
    requires Apply(rows, w).Some?
    ensures Found(Apply(rows, w).value, board, pid) ==
      if board == w.row.board && pid == w.row.pid then Next(Found(rows, board, pid), w) else Found(rows, board, pid)
  {
  }

  // ---------- histories ----------

  /** A client's report, and what the moment brings: its identity, the clock, the disk. */
  datatype Call = Call(payload: Bytes, pid: nat, name: string, now: nat, saved: bool)

  function Submit(rows: Boards, c: Call): (Boards, bool) {
    var ws := ParseStatWrites(c.payload, c.pid, c.name, c.now);
    if ws.None? then (rows, false) else Stored(rows, ws.value, c.saved)
  }

  function History(rows: Boards, calls: seq<Call>): Boards
    decreases |calls|
  {
    if calls == [] then rows else History(Submit(rows, calls[0]).0, calls[1..])
  }

  function Mine(ws: seq<Write>, board: nat, pid: nat): seq<Row> {
    if ws == [] then []
    else (if ws[0].row.board == board && ws[0].row.pid == pid then [ws[0].row] else []) + Mine(ws[1..], board, pid)
  }

  /** The rows the account submitted to the board in calls that were accepted, in order. */
  function Accepted(rows: Boards, calls: seq<Call>, board: nat, pid: nat): seq<Row>
    decreases |calls|
  {
    if calls == [] then []
    else
      var (after, ok) := Submit(rows, calls[0]);
      var ws := ParseStatWrites(calls[0].payload, calls[0].pid, calls[0].name, calls[0].now);
      (if ok && ws.Some? then Mine(ws.value, board, pid) else []) + Accepted(after, calls[1..], board, pid)
  }

  /** The first of the rows with the highest score, an earlier `prior` coming first. */
  function Best(prior: Option<Row>, rs: seq<Row>): Option<Row>
    decreases |rs|
  {
    if rs == [] then prior
    else Best(if prior.Some? && prior.value.score >= rs[0].score then prior else Some(rs[0]), rs[1..])
  }

  lemma {:induction false} BestConcat(prior: Option<Row>, a: seq<Row>, b: seq<Row>)
    ensures Best(prior, a + b) == Best(Best(prior, a), b)
    decreases |a|
  {
    if a == [] { assert a + b == b; } else {
      assert (a + b)[1..] == a[1..] + b;
      BestConcat(if prior.Some? && prior.value.score >= a[0].score then prior else Some(a[0]), a[1..], b);
    }
  }

  /** `Best` means what it says: a row of the list, no score above it, none before it as high. */
  lemma {:induction false} BestIsFirstHighest(rs: seq<Row>)
    ensures Best(None, rs).None? <==> rs == []
    ensures Best(None, rs).Some? ==> exists k :: 0 <= k < |rs| && rs[k] == Best(None, rs).value && FirstHighest(rs, k)
    decreases |rs|
  {
    if rs != [] {
      var (front, last) := (rs[..|rs|-1], rs[|rs|-1]);
      assert rs == front + [last];
      BestConcat(None, front, [last]);
      BestIsFirstHighest(front);
      var prior := Best(None, front);
      assert [last][1..] == [];
      assert Best(prior, [last]) == if prior.Some? && prior.value.score >= last.score then prior else Some(last);
      if prior.Some? {
        var k :| 0 <= k < |front| && front[k] == prior.value && FirstHighest(front, k);
        if prior.value.score >= last.score { assert rs[k] == prior.value && FirstHighest(rs, k); }
        else { assert FirstHighest(rs, |rs|-1); }
      } else {
        assert FirstHighest(rs, |rs|-1);
      }
    }
  }

  predicate FirstHighest(rs: seq<Row>, k: nat)
    requires k < |rs|
  {
    (forall i :: 0 <= i < |rs| ==> rs[i].score <= rs[k].score) && (forall i :: 0 <= i < k ==> rs[i].score < rs[k].score)
  }

  lemma {:induction false} BatchKeepsBest(rows: Boards, ws: seq<Write>, board: nat, pid: nat)
    requires ApplyAll(rows, ws).Some?
    requires forall w :: w in ws && w.row.board == board ==> w.op == 4
    ensures Found(ApplyAll(rows, ws).value, board, pid) == Best(Found(rows, board, pid), Mine(ws, board, pid))
    decreases |ws|
  {
    if ws != [] {
      OneRow(rows, ws[0], board, pid);
      BatchKeepsBest(Apply(rows, ws[0]).value, ws[1..], board, pid);
      var prior := Found(rows, board, pid);
      if ws[0].row.board == board && ws[0].row.pid == pid {
        BestConcat(prior, [ws[0].row], Mine(ws[1..], board, pid));
        assert [ws[0].row][1..] == [];
      } else {
        assert [] + Mine(ws[1..], board, pid) == Mine(ws[1..], board, pid);
      }
    }
  }

  /** On a time or ring board the stored row is the first best of all accepted submissions,
      over any history of accepted, refused and failed calls by anyone. */
  lemma {:induction false} StoredIsBest(rows: Boards, calls: seq<Call>, board: nat, pid: nat)
    requires OctaneBoard(board)
    ensures Found(History(rows, calls), board, pid) == Best(Found(rows, board, pid), Accepted(rows, calls, board, pid))
    decreases |calls|
  {
    if calls != [] {
      var c := calls[0];
      var (after, ok) := Submit(rows, c);
      var ws := ParseStatWrites(c.payload, c.pid, c.name, c.now);
      var mine := if ok && ws.Some? then Mine(ws.value, board, pid) else [];
      if ok {
        ParsedAreProper(c.payload, c.pid, c.name, c.now);
        BatchKeepsBest(rows, ws.value, board, pid);
      }
      StoredIsBest(after, calls[1..], board, pid);
      BestConcat(Found(rows, board, pid), mine, Accepted(after, calls[1..], board, pid));
    }
  }

  /** From empty boards: an account has a row exactly if something of its was accepted, and the
      row is its first highest. */
  lemma BoardsHoldTheBest(calls: seq<Call>, board: nat, pid: nat)
    requires OctaneBoard(board)
    ensures var (row, mine) := (Found(History(map[], calls), board, pid), Accepted(map[], calls, board, pid));
      && (row.Some? <==> mine != [])
      && (row.Some? ==> exists k :: 0 <= k < |mine| && mine[k] == row.value && FirstHighest(mine, k))
  {
    StoredIsBest(map[], calls, board, pid);
    BestIsFirstHighest(Accepted(map[], calls, board, pid));
  }

  /** Nobody can change another account's row on any board. */
  lemma OthersUntouched(rows: Boards, c: Call, board: nat, pid: nat)
    requires pid != c.pid
    ensures Found(Submit(rows, c).0, board, pid) == Found(rows, board, pid)
  {
    var ws := ParseStatWrites(c.payload, c.pid, c.name, c.now);
    if Submit(rows, c).1 {
      ParsedAreProper(c.payload, c.pid, c.name, c.now);
      OthersStay(rows, ws.value, board, pid, c.pid);
    }
  }

  lemma {:induction false} OthersStay(rows: Boards, ws: seq<Write>, board: nat, pid: nat, writer: nat)
    requires ApplyAll(rows, ws).Some? && pid != writer && forall w :: w in ws ==> Proper(w, writer)
    ensures Found(ApplyAll(rows, ws).value, board, pid) == Found(rows, board, pid)
    decreases |ws|
  {
    if ws != [] {
      assert Proper(ws[0], writer);
      OneRow(rows, ws[0], board, pid);
      OthersStay(Apply(rows, ws[0]).value, ws[1..], board, pid, writer);
    }
  }

  /** Every stored row is stored under its own board and account. */
  predicate Filed(rows: Boards) {
    forall b, p :: b in rows && p in rows[b] ==> rows[b][p].board == b && rows[b][p].pid == p
  }

  lemma {:induction false} HistoryKeepsFiled(rows: Boards, calls: seq<Call>)
    requires Filed(rows)
    ensures Filed(History(rows, calls))
    decreases |calls|
  {
    if calls != [] {
      var ws := ParseStatWrites(calls[0].payload, calls[0].pid, calls[0].name, calls[0].now);
      if ws.Some? { BatchKeepsFiled(rows, ws.value); }
      HistoryKeepsFiled(Submit(rows, calls[0]).0, calls[1..]);
    }
  }

  lemma {:induction false} BatchKeepsFiled(rows: Boards, ws: seq<Write>)
    requires Filed(rows)
    ensures ApplyAll(rows, ws).Some? ==> Filed(ApplyAll(rows, ws).value)
    decreases |ws|
  {
    if ws != [] && Apply(rows, ws[0]).Some? { BatchKeepsFiled(Apply(rows, ws[0]).value, ws[1..]); }
  }
}
