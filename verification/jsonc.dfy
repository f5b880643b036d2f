/** Stripping comments from JSON (jsonc.go). */
module JsonComments {

  // ---------- what stripping yields, from each scanner state ----------

  /** Outside strings and comments. */
  function Text(s: string): string
    decreases |s|
  {
    if s == "" then ""
    else if s[0] == '"' then [s[0]] + Quoted(s[1..])
    else if |s| > 1 && s[0] == '/' && s[1] == '/' then Line(s[2..])
    else if |s| > 1 && s[0] == '/' && s[1] == '*' then Block(s[2..])
    else [s[0]] + Text(s[1..])
  }

  /** Inside a string, after its opening quote. */
  function Quoted(s: string): string
    decreases |s|
  {
    if s == "" then ""
    else if s[0] == '\\' && |s| > 1 then [s[0], s[1]] + Quoted(s[2..])
    else if s[0] == '"' then [s[0]] + Text(s[1..])
    else [s[0]] + Quoted(s[1..])
  }

  /** Inside a line comment. */
  function Line(s: string): string
    decreases |s|
  {
    if s == "" then "" else if s[0] == '\n' then "\n" + Text(s[1..]) else Line(s[1..])
  }

  /** Inside a block comment. An unclosed one swallows the last character unseen. */
  function Block(s: string): string
    decreases |s|
  {
    if |s| < 2 then ""
    else if s[0] == '*' && s[1] == '/' then Text(s[2..])
    else (if s[0] == '\n' then "\n" else "") + Block(s[1..])
  }

  // ---------- stripping twice is stripping once ----------

  /** Text that does not start with a slash keeps its first character. */
  lemma FirstKept(s: string)
    requires s != "" && s[0] != '/'
    ensures Text(s) != "" && Text(s)[0] == s[0]
  {
  }

  /** A character copied as plain text is copied again. */
  lemma PlainAgain(s: string)
    requires s != "" && s[0] != '"' && !(|s| > 1 && s[0] == '/' && (s[1] == '/' || s[1] == '*'))
    requires Text(Text(s[1..])) == Text(s[1..])
    ensures Text([s[0]] + Text(s[1..])) == [s[0]] + Text(s[1..])
  {
    var rest := Text(s[1..]);
    var o := [s[0]] + rest;
    assert o[1..] == rest;
    if s[0] == '/' && |s| > 1 { FirstKept(s[1..]); }
  }

  /** Stripping is idempotent on every input. */
  lemma {:induction false} StripTwice(s: string)
    ensures Text(Text(s)) == Text(s)
    decreases |s|, 1
  {
    if s == "" {
    } else if s[0] == '"' {
      QuotedTwice(s[1..]);
      assert ([s[0]] + Quoted(s[1..]))[1..] == Quoted(s[1..]);
    } else if |s| > 1 && s[0] == '/' && s[1] == '/' {
      LineTwice(s[2..]);
    } else if |s| > 1 && s[0] == '/' && s[1] == '*' {
      BlockTwice(s[2..]);
    } else {
      StripTwice(s[1..]);
      PlainAgain(s);
    }
  }

  lemma {:induction false} QuotedTwice(s: string)
    ensures Quoted(Quoted(s)) == Quoted(s)
    decreases |s|, 1
  {
    if s == "" {
    } else if s[0] == '\\' && |s| > 1 {
      QuotedTwice(s[2..]);
      assert ([s[0], s[1]] + Quoted(s[2..]))[2..] == Quoted(s[2..]);
    } else if s[0] == '"' {
      StripTwice(s[1..]);
      assert ([s[0]] + Text(s[1..]))[1..] == Text(s[1..]);
    } else {
      QuotedTwice(s[1..]);
      assert ([s[0]] + Quoted(s[1..]))[1..] == Quoted(s[1..]);
    }
  }

  lemma NewlineAgain(t: string)
    ensures Text("\n" + t) == "\n" + Text(t)
  {
    assert ("\n" + t)[1..] == t;
  }

  lemma {:induction false} LineTwice(s: string)
    ensures Text(Line(s)) == Line(s)
    decreases |s|, 0
  {
    if s != "" {
      if s[0] == '\n' {
        StripTwice(s[1..]);
        NewlineAgain(Text(s[1..]));
      } else {
        LineTwice(s[1..]);
      }
    }
  }

  lemma {:induction false} BlockTwice(s: string)
    ensures Text(Block(s)) == Block(s)
    decreases |s|, 0
  {
    if |s| >= 2 {
      if s[0] == '*' && s[1] == '/' {
        StripTwice(s[2..]);
      } else {
        BlockTwice(s[1..]);
        if s[0] == '\n' { NewlineAgain(Block(s[1..])); } else { assert "" + Block(s[1..]) == Block(s[1..]); }
      }
    }
  }

  // ---------- what each kind of source text becomes ----------

  /** The inside of a string literal: no quote that is not escaped, no escape left open. */
  predicate Literal(body: string) {
    body == "" ||
    if body[0] == '\\' then |body| > 1 && Literal(body[2..]) else body[0] != '"' && Literal(body[1..])
  }

  /** A string literal is copied verbatim, escapes, slashes, stars and all. */
  lemma LiteralVerbatim(body: string, rest: string)
    requires Literal(body)
    ensures Text("\"" + body + "\"" + rest) == "\"" + body + "\"" + Text(rest)
  {
    var s := "\"" + body + "\"" + rest;
    assert s[1..] == body + ("\"" + rest);
    InsideVerbatim(body, rest);
    assert "\"" + (body + ("\"" + Text(rest))) == "\"" + body + "\"" + Text(rest);
  }

  lemma {:induction false} InsideVerbatim(body: string, rest: string)
    requires Literal(body)
    ensures Quoted(body + ("\"" + rest)) == body + ("\"" + Text(rest))
    decreases |body|
  {
    var s := body + ("\"" + rest);
    if body == "" {
      assert s == "\"" + rest && s[1..] == rest;
      assert "" + ("\"" + Text(rest)) == "\"" + Text(rest);
    } else if body[0] == '\\' {
      assert s[2..] == body[2..] + ("\"" + rest);
      InsideVerbatim(body[2..], rest);
      assert [body[0], body[1]] + (body[2..] + ("\"" + Text(rest))) == body + ("\"" + Text(rest));
    } else {
      assert s[1..] == body[1..] + ("\"" + rest);
      InsideVerbatim(body[1..], rest);
      assert [body[0]] + (body[1..] + ("\"" + Text(rest))) == body + ("\"" + Text(rest));
    }
  }

  function Breaks(s: string): string {
    if s == "" then "" else (if s[0] == '\n' then "\n" else "") + Breaks(s[1..])
  }

  /** A line comment goes, its line break stays. */
  lemma LineCommentDropped(body: string, rest: string)
    requires '\n' !in body
    ensures Text("//" + body + "\n" + rest) == "\n" + Text(rest)
  {
    var s := "//" + body + "\n" + rest;
    assert s[2..] == body + ("\n" + rest);
    LineDropped(body, rest);
  }

  lemma {:induction false} LineDropped(body: string, rest: string)
    requires '\n' !in body
    ensures Line(body + ("\n" + rest)) == "\n" + Text(rest)
    decreases |body|
  {
    var s := body + ("\n" + rest);
    if body == "" {
      assert s == "\n" + rest && s[1..] == rest;
    } else {
      assert s[0] == body[0] && body[0] in body && s[1..] == body[1..] + ("\n" + rest);
      LineDropped(body[1..], rest);
    }
  }

  /** `body` closes only where the comment does. */
  predicate OpenThroughout(body: string) {
    forall i :: 0 <= i < |body| ==> !(body[i] == '*' && (body + "*/")[i+1] == '/')
  }

  /** A closed block comment leaves exactly its line breaks. */
  lemma BlockCommentDropped(body: string, rest: string)
    requires OpenThroughout(body)
    ensures Text("/*" + body + "*/" + rest) == Breaks(body) + Text(rest)
  {
    var s := "/*" + body + "*/" + rest;
    assert s[2..] == body + ("*/" + rest);
    BlockDropped(body, rest);
  }

  lemma {:induction false} BlockDropped(body: string, rest: string)
    requires OpenThroughout(body)
    ensures Block(body + ("*/" + rest)) == Breaks(body) + Text(rest)
    decreases |body|
  {
    var s := body + ("*/" + rest);
    if body == "" {
      assert s == "*/" + rest && s[2..] == rest;
      assert "" + Text(rest) == Text(rest);
    } else {
      assert s[1..] == body[1..] + ("*/" + rest);
      assert s[0] == body[0] && s[1] == (body + "*/")[1];
      forall i | 0 <= i < |body[1..]| ensures !(body[1..][i] == '*' && (body[1..] + "*/")[i+1] == '/') {
        assert body[i+1] == body[1..][i] && (body + "*/")[i+2] == (body[1..] + "*/")[i+1];
      }
      BlockDropped(body[1..], rest);
      var br := if s[0] == '\n' then "\n" else "";
      assert br + (Breaks(body[1..]) + Text(rest)) == (br + Breaks(body[1..])) + Text(rest);
    }
  }

  /** Text without quotes in which no comment starts; a slash at its end could start one. */
  predicate Plain(body: string) {
    && '"' !in body && (body != "" ==> body[|body|-1] != '/')
    && forall i :: 0 <= i < |body| - 1 ==> !(body[i] == '/' && (body[i+1] == '/' || body[i+1] == '*'))
  }

  /** Everything outside strings and comments is copied verbatim. */
  lemma {:induction false} PlainVerbatim(body: string, rest: string)
    requires Plain(body)
    ensures Text(body + rest) == body + Text(rest)
    decreases |body|
  {
    if body == "" {
      assert body + rest == rest && "" + Text(rest) == Text(rest);
    } else {
      var s, more := body + rest, body[1..];
      assert s[1..] == more + rest && s[0] == body[0] && body[0] in body;
      assert Plain(more) by {
        forall i | 0 <= i < |more| - 1 ensures !(more[i] == '/' && (more[i+1] == '/' || more[i+1] == '*')) {
          assert more[i] == body[i+1] && more[i+1] == body[i+2];
        }
      }
      PlainVerbatim(more, rest);
      assert [body[0]] + (more + Text(rest)) == body + Text(rest);
      if body[0] == '/' { assert s[1] == body[1]; }
    }
  }

  /** What is still open when the input ends: a line comment goes, and a string that was never closed is
      copied to its end. */
  lemma OpenAtTheEnd(body: string)
    ensures '\n' !in body ==> Text("//" + body) == ""
    ensures Literal(body) ==> Text("\"" + body) == "\"" + body
  {
    assert ("//" + body)[2..] == body && ("\"" + body)[1..] == body;
    if '\n' !in body { LineToTheEnd(body); }
    if Literal(body) { QuotedToTheEnd(body); }
  }

  lemma {:induction false} LineToTheEnd(body: string)
    requires '\n' !in body
    ensures Line(body) == ""
  {
    if body != "" {
      assert body[0] in body;
      LineToTheEnd(body[1..]);
    }
  }

  lemma {:induction false} QuotedToTheEnd(body: string)
    requires Literal(body)
    ensures Quoted(body) == body
    decreases |body|
  {
    if body != "" {
      QuotedToTheEnd(if body[0] == '\\' then body[2..] else body[1..]);
      if body[0] == '\\' { assert [body[0], body[1]] + body[2..] == body; } else { assert [body[0]] + body[1..] == body; }
    }
  }

  // ---------- line numbers ----------

  function Lines(s: string): nat {
    if s == "" then 0 else (if s[0] == '\n' then 1 else 0) + Lines(s[1..])
  }

  /** The scan ends inside a block comment. */
  predicate TextOpen(s: string)
    decreases |s|
  {
    if s == "" then false
    else if s[0] == '"' then QuotedOpen(s[1..])
    else if |s| > 1 && s[0] == '/' && s[1] == '/' then LineOpen(s[2..])
    else if |s| > 1 && s[0] == '/' && s[1] == '*' then BlockOpen(s[2..])
    else TextOpen(s[1..])
  }

  predicate QuotedOpen(s: string)
    decreases |s|
  {
    if s == "" then false
    else if s[0] == '\\' && |s| > 1 then QuotedOpen(s[2..])
    else if s[0] == '"' then TextOpen(s[1..])
    else QuotedOpen(s[1..])
  }

  predicate LineOpen(s: string)
    decreases |s|
  {
    if s == "" then false else if s[0] == '\n' then TextOpen(s[1..]) else LineOpen(s[1..])
  }

  predicate BlockOpen(s: string)
    decreases |s|
  {
    if |s| < 2 then true else if s[0] == '*' && s[1] == '/' then TextOpen(s[2..]) else BlockOpen(s[1..])
  }

  predicate EndsLine(s: string) { s != "" && s[|s|-1] == '\n' }

  /** The line break that goes missing, if any. */
  function Lost(open: bool, s: string): nat { if open && EndsLine(s) then 1 else 0 }

  lemma {:induction false} LinesConcat(a: string, b: string)
    ensures Lines(a + b) == Lines(a) + Lines(b)
  {
    if a == "" { assert a + b == b; } else {
      LinesConcat(a[1..], b);
      assert (a + b)[1..] == a[1..] + b;
    }
  }

  lemma LinesOf(c: char, rest: string)
    ensures Lines([c] + rest) == (if c == '\n' then 1 else 0) + Lines(rest)
  {
    assert ([c] + rest)[1..] == rest;
  }

  lemma {:induction false} TextLines(s: string)
    ensures Lines(Text(s)) + Lost(TextOpen(s), s) == Lines(s)
    decreases |s|, 1
  {
    if s == "" {
    } else if s[0] == '"' {
      QuotedLines(s[1..]);
      LinesOf(s[0], Quoted(s[1..]));
    } else if |s| > 1 && s[0] == '/' && (s[1] == '/' || s[1] == '*') {
      assert s[1..][1..] == s[2..];
      if s[1] == '/' { LineLines(s[2..]); } else { BlockLines(s[2..]); }
    } else {
      TextLines(s[1..]);
      LinesOf(s[0], Text(s[1..]));
    }
  }

  lemma {:induction false} QuotedLines(s: string)
    ensures Lines(Quoted(s)) + Lost(QuotedOpen(s), s) == Lines(s)
    decreases |s|, 1
  {
    if s == "" {
    } else if s[0] == '\\' && |s| > 1 {
      assert s[1..][1..] == s[2..];
      QuotedLines(s[2..]);
      LinesOf(s[1], Quoted(s[2..]));
      LinesOf(s[0], [s[1]] + Quoted(s[2..]));
      assert [s[0]] + ([s[1]] + Quoted(s[2..])) == [s[0], s[1]] + Quoted(s[2..]);
    } else if s[0] == '"' {
      TextLines(s[1..]);
      LinesOf(s[0], Text(s[1..]));
    } else {
      QuotedLines(s[1..]);
      LinesOf(s[0], Quoted(s[1..]));
    }
  }

  lemma {:induction false} LineLines(s: string)
    ensures Lines(Line(s)) + Lost(LineOpen(s), s) == Lines(s)
    decreases |s|, 0
  {
    if s != "" {
      if s[0] == '\n' {
        TextLines(s[1..]);
        LinesOf('\n', Text(s[1..]));
      } else {
        LineLines(s[1..]);
      }
    }
  }

  lemma {:induction false} BlockLines(s: string)
    ensures Lines(Block(s)) + Lost(BlockOpen(s), s) == Lines(s)
    decreases |s|, 0
  {
    if |s| < 2 {
      if |s| == 1 { assert s[1..] == ""; }
    } else if s[0] == '*' && s[1] == '/' {
      assert s[1..][1..] == s[2..];
      TextLines(s[2..]);
    } else {
      BlockLines(s[1..]);
      if s[0] == '\n' { LinesOf('\n', Block(s[1..])); } else { assert "" + Block(s[1..]) == Block(s[1..]); }
    }
  }

  /** Stripping keeps the number of lines if and only if the input does not end, with a line
      break as its last character, inside a block comment that is never closed. */
  lemma LinesKept(s: string)
    ensures Lines(Text(s)) == Lines(s) <==> !(TextOpen(s) && EndsLine(s))
  {
    TextLines(s);
  }

  /** The one line break that can go missing. */
  lemma UnclosedLosesLine()
    ensures Lines(Text("/*\n")) == 0 && Lines("/*\n") == 1
  {
    var s := "/*\n";
    assert s[2..] == "\n" && s[1..] == "*\n" && s[1..][1..] == "\n" && s[1..][1..][1..] == "";
    assert Lines("*\n") == Lines("\n") == 1;
  }

  // ---------- the scanner ----------

  /** One step of the scanner inside a string. */
  lemma QuotedStep(b: string, i: nat, out: string)
    requires i < |b|
    ensures b[i] == '\\' && i + 1 < |b| ==> out + Quoted(b[i..]) == out + [b[i], b[i+1]] + Quoted(b[i+2..])
    ensures !(b[i] == '\\' && i + 1 < |b|) && b[i] == '"' ==> out + Quoted(b[i..]) == out + [b[i]] + Text(b[i+1..])
    ensures !(b[i] == '\\' && i + 1 < |b|) && b[i] != '"' ==> out + Quoted(b[i..]) == out + [b[i]] + Quoted(b[i+1..])
  {
    assert b[i..][1..] == b[i+1..];
    if b[i] == '\\' && i + 1 < |b| {
      assert b[i..][2..] == b[i+2..];
      assert out + ([b[i], b[i+1]] + Quoted(b[i+2..])) == out + [b[i], b[i+1]] + Quoted(b[i+2..]);
    } else if b[i] == '"' {
      assert out + ([b[i]] + Text(b[i+1..])) == out + [b[i]] + Text(b[i+1..]);
    } else {
      assert out + ([b[i]] + Quoted(b[i+1..])) == out + [b[i]] + Quoted(b[i+1..]);
    }
  }

  /** One step of the scanner on a character that starts no comment. */
  lemma TextStep(b: string, i: nat, out: string)
    requires i < |b| && !(i + 1 < |b| && b[i] == '/' && (b[i+1] == '/' || b[i+1] == '*'))
    ensures b[i] == '"' ==> out + Text(b[i..]) == out + [b[i]] + Quoted(b[i+1..])
    ensures b[i] != '"' ==> out + Text(b[i..]) == out + [b[i]] + Text(b[i+1..])
  {
    assert b[i..][1..] == b[i+1..];
    if b[i] == '"' {
      assert out + ([b[i]] + Quoted(b[i+1..])) == out + [b[i]] + Quoted(b[i+1..]);
    } else {
      assert out + ([b[i]] + Text(b[i+1..])) == out + [b[i]] + Text(b[i+1..]);
    }
  }

  lemma NothingLeft()
    ensures Text("") == "" && Quoted("") == ""
  {
  }

  /** jsonc.go's stripJSONComments: one pass over the bytes. */
  method StripJsonComments(b: string) returns (out: string)
    ensures out == Text(b)
  {
    hide Text, Quoted;
    out := "";
    var inString := false;
    var i := 0;
    assert b[0..] == b && out + Text(b) == Text(b);
    while i < |b|
      invariant i <= |b|
      invariant out + (if inString then Quoted(b[i..]) else Text(b[i..])) == Text(b)
      decreases |b| - i
    {
      var c := b[i];
      if inString {
        QuotedStep(b, i, out);
        out := out + [c];
        if c == '\\' && i + 1 < |b| {
          i := i + 1;
          out := out + [b[i]];
          assert out[..|out|-2] + [c, b[i]] == out;
        } else if c == '"' {
          inString := false;
        }
        i := i + 1;
      } else if c == '"' {
        TextStep(b, i, out);
        inString := true;
        out := out + [c];
        i := i + 1;
      } else if c == '/' && i + 1 < |b| && b[i+1] == '/' {
        i, out := SkipLine(b, i, out);
      } else if c == '/' && i + 1 < |b| && b[i+1] == '*' {
        i, out := SkipBlock(b, i, out);
      } else {
        TextStep(b, i, out);
        out := out + [c];
        i := i + 1;
      }
    }
    NothingLeft();
    assert b[i..] == "" && out + "" == out;
  }

  /** The inner loop over a line comment. */
  method SkipLine(b: string, start: nat, kept: string) returns (i: nat, out: string)
    requires start + 1 < |b| && b[start] == '/' && b[start+1] == '/'
    ensures start < i <= |b| && out + Text(b[i..]) == kept + Text(b[start..])
  {
    i := start + 2;
    assert b[start..][2..] == b[i..];
    while i < |b| && b[i] != '\n'
      invariant start + 2 <= i <= |b| && Line(b[i..]) == Text(b[start..])
    {
      assert b[i..][1..] == b[i+1..];
      i := i + 1;
    }
    out := kept;
    if i < |b| {
      assert b[i..][1..] == b[i+1..];
      assert kept + ("\n" + Text(b[i+1..])) == kept + "\n" + Text(b[i+1..]);
      out := out + "\n";
      i := i + 1;
    } else {
      assert b[i..] == "";
    }
  }

  /** The inner loop over a block comment. */
  method SkipBlock(b: string, start: nat, kept: string) returns (i: nat, out: string)
    requires start + 1 < |b| && b[start] == '/' && b[start+1] == '*'
    ensures start < i <= |b| && out + Text(b[i..]) == kept + Text(b[start..])
  {
    i, out := start + 2, kept;
    assert b[start..][2..] == b[i..];
    while i + 1 < |b| && !(b[i] == '*' && b[i+1] == '/')
      invariant start + 2 <= i <= |b| && out + Block(b[i..]) == kept + Text(b[start..])
    {
      assert b[i..][1..] == b[i+1..];
      assert out + ("\n" + Block(b[i+1..])) == out + "\n" + Block(b[i+1..]);
      assert "" + Block(b[i+1..]) == Block(b[i+1..]);
      if b[i] == '\n' { out := out + "\n"; }
      i := i + 1;
    }
    if i + 1 < |b| {
      assert b[i..][2..] == b[i+2..];
      i := i + 2;
    } else {
      i := |b|;
    }
  }
}
