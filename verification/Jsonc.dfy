/**
 The two-pass JSONC stripper (`jsonc` of catalog_service/src/import_formats.py): comments first, then the
 commas before a closing bracket.
 */
module Jsonc {
  import opened Outcomes

  /** Whether the scan is inside a string literal, and just after a backslash there. */
  datatype State = State(quoted: bool, escape: bool)

  const OUTSIDE := State(false, false)

  function Next(st: State, c: char): State
  {
    if !st.quoted then State(c == '"', false)
    else if st.escape then State(true, false)
    else if c == '\\' then State(true, true)
    else State(c != '"', false)
  }

  // ------------------------------------------------------- first pass: comments

  /** Index of the first newline; |s| when there is none. */
  function Newline(s: string): (n: nat)
    ensures n <= |s| && (n < |s| ==> s[n] == '\n') && forall k | 0 <= k < n :: s[k] != '\n'
  {
    if s == "" || s[0] == '\n' then 0 else 1 + Newline(s[1..])
  }

  /** Index of the first end of a block comment. */
  function Close(s: string): (r: Option<nat>)
    ensures r.Some? ==> r.value + 2 <= |s|
  {
    if |s| < 2 then None
    else if s[0] == '*' && s[1] == '/' then Some(0)
    else match Close(s[1..]) case None => None case Some(k) => Some(k + 1)
  }

  function Joined(a: string, b: Option<string>): Option<string>
  {
    match b case None => None case Some(s) => Some(a + s)
  }

  lemma JoinedEmpty(b: Option<string>)
    ensures Joined("", b) == b
  {
    if b.Some? { assert "" + b.value == b.value; }
  }

  lemma JoinedTwice(a: string, b: string, c: Option<string>)
    ensures Joined(a, Joined(b, c)) == Joined(a + b, c)
  {
    if c.Some? { assert a + (b + c.value) == (a + b) + c.value; }
  }

  predicate Opens(s: string, second: char)
  {
    |s| >= 2 && s[0] == '/' && s[1] == second
  }

  /** What the first pass makes of the rest of a text; nothing when a block comment does not end. */
  function Strip(s: string, st: State): Option<string>
    decreases |s|
  {
    if s == "" then Some("")
    else if !st.quoted && Opens(s, '/') then Strip(s[Newline(s)..], OUTSIDE)
    else if !st.quoted && Opens(s, '*') then
      match Close(s[2..]) case None => None case Some(k) => Joined(" ", Strip(s[k + 4..], OUTSIDE))
    else Joined([s[0]], Strip(s[1..], Next(st, s[0])))
  }

  /** The scan state after one more character. */
  method Scan(c: char, st: State) returns (quoted: bool, escape: bool)
    requires st.escape ==> st.quoted
    ensures State(quoted, escape) == Next(st, c)
  {
    quoted, escape := st.quoted, st.escape;
    if quoted {
      if escape {
        escape := false;
      } else if c == '\\' {
        escape := true;
      } else if c == '"' {
        quoted := false;
      }
    } else if c == '"' {
      quoted := true;
    }
  }

  predicate Ordinary(s: string, st: State)
  {
    s != "" && (st.quoted || (!Opens(s, '/') && !Opens(s, '*')))
  }

  lemma KeepStep(text: string, i: nat, st: State, out: string)
    requires i < |text| && Ordinary(text[i..], st)
    ensures Joined(out, Strip(text[i..], st)) == Joined(out + [text[i]], Strip(text[i + 1..], Next(st, text[i])))
  {
    assert text[i..][0] == text[i] && text[i..][1..] == text[i + 1..];
    JoinedTwice(out, [text[i]], Strip(text[i + 1..], Next(st, text[i])));
  }

  lemma SkipStep(text: string, i: nat, out: string)
    requires i < |text| && (Opens(text[i..], '/') || Opens(text[i..], '*'))
    ensures Opens(text[i..], '/') ==> Strip(text[i..], OUTSIDE) == Strip(text[i + Newline(text[i..])..], OUTSIDE)
    ensures Opens(text[i..], '*') && Close(text[i + 2..]).None? ==> Strip(text[i..], OUTSIDE).None?
    ensures Opens(text[i..], '*') && Close(text[i + 2..]).Some? ==>
              Joined(out, Strip(text[i..], OUTSIDE)) ==
                Joined(out + " ", Strip(text[i + Close(text[i + 2..]).value + 4..], OUTSIDE))
  {
    var rest := text[i..];
    assert rest[2..] == text[i + 2..];
    if Opens(rest, '/') {
      assert rest[Newline(rest)..] == text[i + Newline(rest)..];
    } else if Close(rest[2..]).Some? {
      var k := Close(rest[2..]).value;
      assert rest[k + 4..] == text[i + k + 4..];
      JoinedTwice(out, " ", Strip(text[i + k + 4..], OUTSIDE));
    }
  }

  /** One round of the loop: a comment is skipped, or a character kept. */
  method Round(text: string, out: string, i: nat, st: State) returns (ok: bool, out': string, i': nat, st': State)
    requires i < |text| && (st.escape ==> st.quoted)
    ensures if ok then i < i' <= |text| && (st'.escape ==> st'.quoted) &&
              Joined(out', Strip(text[i'..], st')) == Joined(out, Strip(text[i..], st))
            else Strip(text[i..], st).None?
  {
    ok, out', i', st' := true, out, i, st;
    if !st.quoted && Opens(text[i..], '/') {
      SkipStep(text, i, out);
      i' := i + Newline(text[i..]);
    } else if !st.quoted && Opens(text[i..], '*') {
      SkipStep(text, i, out);
      var end := Close(text[i + 2..]);
      if end.None? { return false, out, i, st; }
      out', i' := out + " ", i + end.value + 4;
    } else {
      KeepStep(text, i, st, out);
      var quoted, escape := Scan(text[i], st);
      out', i', st' := out + [text[i]], i + 1, State(quoted, escape);
    }
  }

  /** The first pass. */
  method StripComments(text: string) returns (r: Result<string>)
    ensures r == match Strip(text, OUTSIDE) case Some(s) => Success(s) case None => Failure(400)
  {
    var out, i, st := "", 0, OUTSIDE;
    ghost var whole := Strip(text, OUTSIDE);
    JoinedEmpty(whole);
    assert text[0..] == text;
    while i < |text|
      invariant 0 <= i <= |text| && (st.escape ==> st.quoted)
      invariant whole == Joined(out, Strip(text[i..], st))
    {
      var ok;
      ok, out, i, st := Round(text, out, i, st);
      if !ok { return Failure(400); }
    }
    assert out + "" == out;
    r := Success(out);
  }

  /** Running the first pass again changes nothing, on every text it accepts. */
  lemma {:induction false} StripTwice(s: string, st: State)
    requires Strip(s, st).Some?
    ensures Strip(Strip(s, st).value, st) == Strip(s, st)
    decreases |s|
  {
    if s == "" {
    } else if !st.quoted && Opens(s, '/') {
      StripTwice(s[Newline(s)..], OUTSIDE);
    } else if !st.quoted && Opens(s, '*') {
      var k := Close(s[2..]).value;
      StripTwice(s[k + 4..], OUTSIDE);
      var rest := Strip(s[k + 4..], OUTSIDE).value;
      assert (" " + rest)[1..] == rest;
    } else {
      StripTwice(s[1..], Next(st, s[0]));
      var rest := Strip(s[1..], Next(st, s[0])).value;
      assert ([s[0]] + rest)[1..] == rest;
      if s[0] == '/' && !st.quoted { FirstKept(s[1..]); }
    }
  }

  /** A text that starts no comment keeps its first character. */
  lemma FirstKept(s: string)
    requires Strip(s, OUTSIDE).Some? && (s != "" ==> s[0] != '/')
    ensures var r := Strip(s, OUTSIDE).value; if s == "" then r == "" else r != "" && r[0] == s[0]
  {
  }

  // ------------------------------------------------------------- written tokens

  datatype Token =
    | Literal(body: string)
    | Plain(c: char)
    | LineComment(body: string)
    | BlockComment(body: string)

  function Written(t: Token): string
  {
    match t
    case Literal(body) => "\"" + body + "\""
    case Plain(c) => [c]
    case LineComment(body) => "//" + body
    case BlockComment(body) => "/*" + body + "*/"
  }

  function Render(ts: seq<Token>): string
  {
    if ts == [] then "" else Written(ts[0]) + Render(ts[1..])
  }

  /** Scanning the body of a literal neither closes it nor leaves a backslash pending. */
  predicate LiteralBody(s: string, st: State)
  {
    if s == "" then st == State(true, false) else st.quoted && LiteralBody(s[1..], Next(st, s[0]))
  }

  /** The token means itself when this text follows. */
  predicate Separate(t: Token, following: string)
  {
    match t
    case Literal(body) => LiteralBody(body, State(true, false))
    case Plain(c) => c != '"' && (c == '/' && following != "" ==> following[0] != '/' && following[0] != '*')
    case LineComment(body) => '\n' !in body && (following != "" ==> following[0] == '\n')
    case BlockComment(body) => Close(body).None?
  }

  /** Each token means itself before the ones that follow and `tail`. */
  predicate WellWritten(ts: seq<Token>, tail: string)
  {
    ts == [] || (Separate(ts[0], Render(ts[1..]) + tail) && WellWritten(ts[1..], tail))
  }

  /** A literal that never closes. */
  predicate OpenLiteral(s: string)
  {
    s != "" && s[0] == '"' && StaysQuoted(s[1..], State(true, false))
  }

  predicate StaysQuoted(s: string, st: State)
  {
    s == "" || (Next(st, s[0]).quoted && StaysQuoted(s[1..], Next(st, s[0])))
  }

  predicate OpenComment(s: string)
  {
    Opens(s, '*') && Close(s[2..]).None?
  }

  function Cleaned(ts: seq<Token>): seq<Token>
  {
    if ts == [] then [] else
      Replacement(ts[0]) + Cleaned(ts[1..])
  }

  lemma {:induction false} LiteralKept(body: string, st: State, rest: string)
    requires LiteralBody(body, st)
    ensures Strip(body + "\"" + rest, st) == Joined(body + "\"", Strip(rest, OUTSIDE))
    decreases |body|
  {
    var s := body + "\"" + rest;
    if body == "" {
      assert s[0] == '"' && s[1..] == rest;
      assert "" + "\"" == ['"'];
    } else {
      LiteralKept(body[1..], Next(st, body[0]), rest);
      assert s[0] == body[0] && s[1..] == body[1..] + "\"" + rest;
      JoinedTwice([body[0]], body[1..] + "\"", Strip(rest, OUTSIDE));
      assert [body[0]] + (body[1..] + "\"") == body + "\"";
    }
  }

  lemma {:induction false} NewlineAfter(body: string, rest: string)
    requires '\n' !in body && (rest != "" ==> rest[0] == '\n')
    ensures Newline(body + rest) == |body|
  {
    if body == "" {
      assert body + rest == rest;
    } else {
      NewlineAfter(body[1..], rest);
      assert (body + rest)[1..] == body[1..] + rest;
    }
  }

  lemma {:induction false} CloseAfter(body: string, rest: string)
    requires Close(body).None?
    ensures Close(body + "*/" + rest) == Some(|body|)
  {
    var s := body + "*/" + rest;
    if body != "" {
      CloseAfter(body[1..], rest);
      assert s[1..] == body[1..] + "*/" + rest;
      assert |body| > 1 ==> s[1] == body[1];
    }
  }

  lemma LiteralStripped(body: string, rest: string)
    requires LiteralBody(body, State(true, false))
    ensures Strip("\"" + body + "\"" + rest, OUTSIDE) == Joined("\"" + body + "\"", Strip(rest, OUTSIDE))
  {
    var s := "\"" + body + "\"" + rest;
    LiteralKept(body, State(true, false), rest);
    assert s[0] == '"' && s[1..] == body + "\"" + rest;
    JoinedTwice(['"'], body + "\"", Strip(rest, OUTSIDE));
    assert ['"'] + (body + "\"") == "\"" + body + "\"";
  }

  lemma LineCommentStripped(body: string, rest: string)
    requires '\n' !in body && (rest != "" ==> rest[0] == '\n')
    ensures Strip("//" + body + rest, OUTSIDE) == Strip(rest, OUTSIDE)
  {
    var s := "//" + body + rest;
    NewlineAfter("//" + body, rest);
    assert s[Newline(s)..] == rest;
  }

  lemma BlockCommentStripped(body: string, rest: string)
    requires Close(body).None?
    ensures Strip("/*" + body + "*/" + rest, OUTSIDE) == Joined(" ", Strip(rest, OUTSIDE))
  {
    var s := "/*" + body + "*/" + rest;
    assert s[2..] == body + "*/" + rest;
    CloseAfter(body, rest);
    assert s[|body| + 4..] == rest;
  }

  lemma PlainStripped(c: char, rest: string)
    requires Separate(Plain(c), rest)
    ensures Strip([c] + rest, OUTSIDE) == Joined([c], Strip(rest, OUTSIDE))
  {
    var s := [c] + rest;
    assert s[0] == c && s[1..] == rest;
  }

  function Replacement(t: Token): seq<Token>
  {
    match t case LineComment(_) => [] case BlockComment(_) => [Plain(' ')] case _ => [t]
  }

  lemma TokenStripped(t: Token, rest: string)
    requires Separate(t, rest)
    ensures Strip(Written(t) + rest, OUTSIDE) == Joined(Render(Replacement(t)), Strip(rest, OUTSIDE))
  {
    RenderOne(t);
    RenderOne(Plain(' '));
    match t
    case Literal(body) => LiteralStripped(body, rest);
    case Plain(c) => PlainStripped(c, rest);
    case LineComment(body) =>
      LineCommentStripped(body, rest);
      JoinedEmpty(Strip(rest, OUTSIDE));
    case BlockComment(body) => BlockCommentStripped(body, rest);
  }

  lemma RenderOne(t: Token)
    ensures Render([t]) == Written(t)
  {
    assert Written(t) + "" == Written(t);
  }

  lemma RenderFirst(a: seq<Token>, b: seq<Token>)
    requires |a| <= 1
    ensures Render(a + b) == Render(a) + Render(b)
  {
    if a == [] {
      assert a + b == b;
    } else {
      assert a == [a[0]];
      RenderOne(a[0]);
      assert (a + b)[1..] == b;
    }
  }

  /** Line comments vanish, block comments become a space, everything else is kept as written. */
  lemma {:induction false} RenderedStripped(ts: seq<Token>, tail: string)
    requires WellWritten(ts, tail)
    ensures Strip(Render(ts) + tail, OUTSIDE) == Joined(Render(Cleaned(ts)), Strip(tail, OUTSIDE))
  {
    if ts == [] {
      assert "" + tail == tail;
      JoinedEmpty(Strip(tail, OUTSIDE));
    } else {
      RenderedStripped(ts[1..], tail);
      var rest := Render(ts[1..]) + tail;
      assert Render(ts) + tail == Written(ts[0]) + rest;
      TokenStripped(ts[0], rest);
      RenderFirst(Replacement(ts[0]), Cleaned(ts[1..]));
      JoinedTwice(Render(Replacement(ts[0])), Render(Cleaned(ts[1..])), Strip(tail, OUTSIDE));
    }
  }

  lemma {:induction false} LiteralSplit(s: string, st: State) returns (n: nat)
    requires st.quoted
    ensures n <= |s| && if n == |s| then StaysQuoted(s, st) else s[n] == '"' && LiteralBody(s[..n], st)
  {
    if s == "" {
      n := 0;
    } else if !Next(st, s[0]).quoted {
      n := 0;
    } else {
      n := LiteralSplit(s[1..], Next(st, s[0]));
      n := n + 1;
      if n < |s| { assert s[..n][1..] == s[1..][..n - 1]; }
    }
  }

  lemma {:induction false} CloseSplit(s: string)
    requires Close(s).Some?
    ensures var k := Close(s).value; s == s[..k] + "*/" + s[k + 2..] && Close(s[..k]).None?
  {
    var k := Close(s).value;
    if k > 0 {
      CloseSplit(s[1..]);
      assert s[..k][1..] == s[1..][..k - 1];
      assert s[1..] == s[1..][..k - 1] + "*/" + s[1..][k + 1..];
    }
  }

  /** The first token of a text that neither is empty nor ends inside a literal or a block comment here. */
  lemma FirstToken(s: string) returns (t: Token, rest: string)
    requires s != "" && !OpenLiteral(s) && !OpenComment(s)
    ensures s == Written(t) + rest && Separate(t, rest) && |rest| < |s|
  {
    if s[0] == '"' {
      var n := LiteralSplit(s[1..], State(true, false));
      t, rest := Literal(s[1..][..n]), s[n + 2..];
    } else if Opens(s, '/') {
      var n := Newline(s);
      t, rest := LineComment(s[2..n]), s[n..];
    } else if Opens(s, '*') {
      CloseSplit(s[2..]);
      var k := Close(s[2..]).value;
      t, rest := BlockComment(s[2..][..k]), s[k + 4..];
    } else {
      t, rest := Plain(s[0]), s[1..];
    }
  }

  /** Every text is written this way: tokens, then nothing, an open literal, or an open block comment. */
  lemma {:induction false} Tokenized(s: string) returns (ts: seq<Token>, tail: string)
    ensures s == Render(ts) + tail && WellWritten(ts, tail)
    ensures tail == "" || OpenLiteral(tail) || OpenComment(tail)
    decreases |s|
  {
    if s == "" || OpenLiteral(s) || OpenComment(s) {
      ts, tail := [], s;
    } else {
      var t, rest := FirstToken(s);
      var more;
      more, tail := Tokenized(rest);
      ts := [t] + more;
      assert ts[1..] == more;
    }
  }

  lemma {:induction false} OpenLiteralKept(s: string, st: State)
    requires st.quoted && StaysQuoted(s, st)
    ensures Strip(s, st) == Some(s)
  {
    if s != "" {
      OpenLiteralKept(s[1..], Next(st, s[0]));
      assert [s[0]] + s[1..] == s;
    }
  }

  /** The first pass on every text: it fails exactly on an open block comment. */
  lemma StripMeaning(s: string) returns (ts: seq<Token>, tail: string)
    ensures s == Render(ts) + tail && WellWritten(ts, tail)
    ensures tail == "" || OpenLiteral(tail) || OpenComment(tail)
    ensures Strip(s, OUTSIDE) == if OpenComment(tail) then None else Some(Render(Cleaned(ts)) + tail)
  {
    ts, tail := Tokenized(s);
    RenderedStripped(ts, tail);
    if OpenLiteral(tail) {
      OpenLiteralKept(tail[1..], State(true, false));
      assert [tail[0]] + tail[1..] == tail;
    }
  }

  // -------------------------------------------------- second pass: trailing commas

  /** What str.lstrip() removes. */
  predicate Blank(c: char)
  {
    || '\t' <= c <= '\r' || '\U{1c}' <= c <= ' ' ||
       c in {'\U{85}', '\U{a0}', '\U{1680}', '\U{202f}', '\U{205f}', '\U{3000}'}
    || '\U{2000}' <= c <= '\U{200a}' || c == '\U{2028}' || c == '\U{2029}'
  }

  /** lstrip().startswith(("}", "]")) */
  predicate Closes(s: string)
  {
    s != "" && (if Blank(s[0]) then Closes(s[1..]) else s[0] == '}' || s[0] == ']')
  }

  /** The scan state before position i. */
  function StateAt(s: string, i: nat): State
    requires i <= |s|
  {
    if i == 0 then OUTSIDE else Next(StateAt(s, i - 1), s[i - 1])
  }

  /** A comma outside the strings whose next non-blank character closes an object or an array. */
  predicate Trailing(s: string, i: nat)
    requires i < |s|
  {
    && s[i] == ',' && !StateAt(s, i).quoted
    && exists j :: i < j < |s| && (s[j] == '}' || s[j] == ']') && forall k | i < k < j :: Blank(s[k])
  }

  /** The first n characters without the trailing commas. */
  function Kept(s: string, n: nat): string
    requires n <= |s|
  {
    if n == 0 then "" else Kept(s, n - 1) + (if Trailing(s, n - 1) then "" else [s[n - 1]])
  }

  lemma {:induction false} ClosesIff(s: string)
    ensures Closes(s) <==>
              exists j :: 0 <= j < |s| && (s[j] == '}' || s[j] == ']') && forall k | 0 <= k < j :: Blank(s[k])
  {
    if s != "" && Blank(s[0]) {
      ClosesIff(s[1..]);
      if Closes(s[1..]) {
        var j :| 0 <= j < |s[1..]| && (s[1..][j] == '}' || s[1..][j] == ']') &&
                 forall k | 0 <= k < j :: Blank(s[1..][k]);
        assert forall k | 1 <= k < j + 1 :: s[k] == s[1..][k - 1];
        assert s[j + 1] == s[1..][j];
      }
      if exists j :: 0 <= j < |s| && (s[j] == '}' || s[j] == ']') && forall k | 0 <= k < j :: Blank(s[k]) {
        var j :| 0 <= j < |s| && (s[j] == '}' || s[j] == ']') && forall k | 0 <= k < j :: Blank(s[k]);
        assert j > 0 && s[1..][j - 1] == s[j];
        assert forall k | 0 <= k < j - 1 :: s[1..][k] == s[k + 1];
      }
    }
  }

  lemma TrailingIff(s: string, i: nat)
    requires i < |s|
    ensures Trailing(s, i) <==> s[i] == ',' && !StateAt(s, i).quoted && Closes(s[i + 1..])
  {
    var rest := s[i + 1..];
    ClosesIff(rest);
    if Closes(rest) {
      var j :| 0 <= j < |rest| && (rest[j] == '}' || rest[j] == ']') && forall k | 0 <= k < j :: Blank(rest[k]);
      assert s[i + 1 + j] == rest[j];
      assert forall k | i < k < i + 1 + j :: s[k] == rest[k - i - 1];
    }
    if Trailing(s, i) {
      var j :| i < j < |s| && (s[j] == '}' || s[j] == ']') && forall k | i < k < j :: Blank(s[k]);
      assert rest[j - i - 1] == s[j];
      assert forall k | 0 <= k < j - i - 1 :: rest[k] == s[k + i + 1];
    }
  }

  /** Exactly the trailing commas are removed. */
  method DropTrailingCommas(text: string) returns (out: string)
    ensures out == Kept(text, |text|)
  {
    var quoted, escape := false, false;
    out := "";
    for i := 0 to |text|
      invariant State(quoted, escape) == StateAt(text, i) && (escape ==> quoted)
      invariant out == Kept(text, i)
    {
      var c := text[i];
      TrailingIff(text, i);
      if !quoted && c == ',' && Closes(text[i + 1..]) { continue; }
      out := out + [c];
      quoted, escape := Scan(c, State(quoted, escape));
    }
  }

  /** Both passes: what is handed to the JSON parser, byte order marks aside. */
  method Prepare(text: string) returns (r: Result<string>)
    ensures r == match Strip(text, OUTSIDE) case Some(s) => Success(Kept(s, |s|)) case None => Failure(400)
  {
    var stripped :- StripComments(text);
    var kept := DropTrailingCommas(stripped);
    r := Success(kept);
  }

  // ------------------------------------------- when the second pass is idempotent

  /** The second pass on the rest of a text. */
  function Drop(s: string, st: State): string
  {
    if s == "" then ""
    else if !st.quoted && s[0] == ',' && Closes(s[1..]) then Drop(s[1..], st)
    else [s[0]] + Drop(s[1..], Next(st, s[0]))
  }

  lemma {:induction false} StateFrom(s: string, i: nat)
    requires i < |s|
    ensures StateAt(s, i + 1) == Next(StateAt(s, i), s[i])
  {
  }

  lemma {:induction false} DropIsKept(s: string, i: nat)
    requires i <= |s|
    ensures Kept(s, |s|) == Kept(s, i) + Drop(s[i..], StateAt(s, i))
    decreases |s| - i
  {
    if i < |s| {
      DropIsKept(s, i + 1);
      TrailingIff(s, i);
      assert s[i..][0] == s[i] && s[i..][1..] == s[i + 1..];
    }
  }

  /** A comma, blanks, and the end of an object or array. */
  predicate CommaThenCloses(s: string)
  {
    s != "" && (if Blank(s[0]) then CommaThenCloses(s[1..]) else s[0] == ',' && Closes(s[1..]))
  }

  /** No two commas outside the strings stand together, only blanks between them, before a closing bracket. */
  predicate NoDoubledComma(s: string, st: State)
  {
    s == "" || (!(!st.quoted && s[0] == ',' && CommaThenCloses(s[1..])) && NoDoubledComma(s[1..], Next(st, s[0])))
  }

  lemma {:induction false} ClosesAfterDrop(s: string)
    ensures Closes(Drop(s, OUTSIDE)) <==> Closes(s) || CommaThenCloses(s)
  {
    if s != "" {
      if s[0] == ',' && Closes(s[1..]) {
        ClosesAfterDrop(s[1..]);
      } else if Blank(s[0]) {
        ClosesAfterDrop(s[1..]);
        assert Drop(s, OUTSIDE)[1..] == Drop(s[1..], OUTSIDE);
      } else {
        assert Drop(s, OUTSIDE)[0] == s[0];
      }
    }
  }

  lemma {:induction false} DropShortens(s: string, st: State)
    ensures |Drop(s, st)| <= |s|
  {
    if s != "" {
      DropShortens(s[1..], st);
      DropShortens(s[1..], Next(st, s[0]));
    }
  }

  /** Running the second pass again changes nothing exactly when no such pair of commas stands in the text. */
  lemma {:induction false} DropTwice(s: string, st: State)
    requires st.escape ==> st.quoted
    ensures Drop(Drop(s, st), st) == Drop(s, st) <==> NoDoubledComma(s, st)
  {
    if s != "" {
      var st' := Next(st, s[0]);
      if !st.quoted && s[0] == ',' && Closes(s[1..]) {
        DropTwice(s[1..], st);
        NotBoth(s[1..]);
      } else {
        var rest := Drop(s[1..], st');
        assert ([s[0]] + rest)[1..] == rest;
        DropTwice(s[1..], st');
        if !st.quoted && s[0] == ',' {
          ClosesAfterDrop(s[1..]);
          DropShortens(rest, st');
        }
      }
    }
  }

  lemma {:induction false} NotBoth(s: string)
    ensures !(Closes(s) && CommaThenCloses(s))
  {
    if s != "" && Blank(s[0]) { NotBoth(s[1..]); }
  }

  lemma DropTwiceDiffers()
    ensures Drop("[1,,]", OUTSIDE) == "[1,]" && Drop("[1,]", OUTSIDE) == "[1]"
  {
    assert "1,,]"[1..] == ",,]" && ",,]"[1..] == ",]" && ",]"[1..] == "]" && "]"[1..] == "";
    assert "[1,,]"[1..] == "1,,]" && "[1,]"[1..] == "1,]" && "1,]"[1..] == ",]";
    assert Closes("]") && !Closes(",]");
    assert Drop("", OUTSIDE) == "" && Drop("]", OUTSIDE) == "]" && Drop(",]", OUTSIDE) == "]";
    assert Drop(",,]", OUTSIDE) == ",]" && Drop("1,,]", OUTSIDE) == "1,]" && Drop("1,]", OUTSIDE) == "1]";
  }
}
