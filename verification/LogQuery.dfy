/**
 The bounded log query (`query` of observability/main.py): the tails of the newest files are scanned within
 a byte budget, and a bounded heap keeps the newest matching events.
 */
module LogQuery {
  import opened Outcomes

  /** A candidate as `open` finds it: its bytes, or nothing (rotated away, or no longer inside the log root). */
  type File = Option<string>

  datatype Event = Event(stamp: string, fields: map<string, string>)

  datatype Filter = Filter(traceId: string, jobId: string, sessionId: string)

  predicate Wanted(e: Event, key: string, value: string)
  {
    value == "" || (key in e.fields && e.fields[key] == value)
  }

  predicate Passes(e: Event, f: Filter)
  {
    Wanted(e, "trace_id", f.traceId) && Wanted(e, "job_id", f.jobId) && Wanted(e, "session_id", f.sessionId)
  }

  // ------------------------------------------------------------------- lines

  /** Index just past the first line end of s; |s| when there is none. */
  function LineEnd(s: string): (n: nat)
    ensures n <= |s| && (s != "" ==> n > 0)
  {
    if s == "" then 0
    else if s[0] == '\n' then 1
    else if s[0] == '\r' then if |s| > 1 && s[1] == '\n' then 2 else 1
    else 1 + LineEnd(s[1..])
  }

  function Text(line: string): string
  {
    if line != "" && line[|line| - 1] in {'\n', '\r'} then Text(line[..|line| - 1]) else line
  }

  /** bytes.splitlines */
  function Lines(s: string): seq<string>
  {
    if s == "" then [] else [Text(s[..LineEnd(s)])] + Lines(s[LineEnd(s)..])
  }

  /** partition(b"\n")[2]: what follows the first newline. */
  function AfterNewline(s: string): string
  {
    if s == "" then "" else if s[0] == '\n' then s[1..] else AfterNewline(s[1..])
  }

  lemma {:induction false} LineEndStays(a: string, b: string)
    requires a != "" && a[|a| - 1] == '\n'
    ensures LineEnd(a + b) == LineEnd(a)
  {
    assert (a + b)[0] == a[0] && (|a| > 1 ==> (a + b)[1] == a[1]);
    if a[0] != '\n' && a[0] != '\r' {
      LineEndStays(a[1..], b);
      assert (a + b)[1..] == a[1..] + b;
    }
  }

  /** Cutting right after a newline cuts between lines. */
  lemma {:induction false} LinesSplit(a: string, b: string)
    requires a != "" ==> a[|a| - 1] == '\n'
    ensures Lines(a + b) == Lines(a) + Lines(b)
    decreases |a|
  {
    if a == "" {
      assert a + b == b;
    } else {
      LineEndStays(a, b);
      var n := LineEnd(a);
      assert (a + b)[..n] == a[..n] && (a + b)[n..] == a[n..] + b;
      LinesSplit(a[n..], b);
    }
  }

  lemma {:induction false} NewlineBefore(s: string) returns (head: string)
    ensures s == head + AfterNewline(s) && (head == s || (head != "" && head[|head| - 1] == '\n'))
  {
    if s == "" {
      head := "";
    } else if s[0] == '\n' {
      head := ['\n'];
    } else {
      var rest := NewlineBefore(s[1..]);
      head := [s[0]] + rest;
    }
  }

  // -------------------------------------------------------------------- scan

  datatype Scan = Scan(lines: seq<string>, bytes: nat, partial: bool)

  /** The lines read from one file when `budget` bytes may still be read. */
  function Tail(content: string, budget: nat): seq<string>
  {
    if budget < |content| then Lines(AfterNewline(content[|content| - budget..])) else Lines(content)
  }

  /** Only whole lines of the file are ever read, and they are its last ones. */
  lemma TailIsSuffix(content: string, budget: nat) returns (skipped: nat)
    ensures skipped <= |Lines(content)| && Tail(content, budget) == Lines(content)[skipped..]
    ensures budget >= |content| ==> skipped == 0
  {
    if budget < |content| {
      var cut := |content| - budget;
      var head := NewlineBefore(content[cut..]);
      var rest := AfterNewline(content[cut..]);
      if head == content[cut..] {
        assert rest == "" by { assert |content[cut..]| == |head| + |rest|; }
        skipped := |Lines(content)|;
      } else {
        assert content == (content[..cut] + head) + rest;
        LinesSplit(content[..cut] + head, rest);
        skipped := |Lines(content[..cut] + head)|;
      }
    } else {
      skipped := 0;
    }
  }

  /** All lines of the present files. */
  function Everything(files: seq<File>): seq<string>
  {
    if files == [] then [] else (if files[0].Some? then Lines(files[0].value) else []) + Everything(files[1..])
  }

  function Size(files: seq<File>): nat
  {
    if files == [] then 0 else (if files[0].Some? then |files[0].value| else 0) + Size(files[1..])
  }

  /** The tails read, newest file first, while `budget` bytes are left. */
  function Read(files: seq<File>, budget: nat): seq<string>
  {
    if files == [] then []
    else if files[0].None? then Read(files[1..], budget)
    else if budget == 0 then []
    else Tail(files[0].value, budget) + Read(files[1..], budget - Min(|files[0].value|, budget))
  }

  function Min(a: nat, b: nat): nat
  {
    if a <= b then a else b
  }

  /** Something may have been missed: a file was cut, or found no budget left. */
  predicate Cut(files: seq<File>, budget: nat)
  {
    files != [] && if files[0].None? then Cut(files[1..], budget)
                   else budget == 0 || budget < |files[0].value| || Cut(files[1..], budget - |files[0].value|)
  }

  /** Only whole lines are read; all of them unless something was cut, which a scan over the budget always was. */
  lemma {:induction false} ReadMeaning(files: seq<File>, budget: nat)
    ensures forall line | line in Read(files, budget) :: line in Everything(files)
    ensures !Cut(files, budget) ==> Read(files, budget) == Everything(files)
    ensures Size(files) > budget ==> Cut(files, budget)
    ensures Cut(files, budget) ==> Size(files) >= budget
  {
    if files != [] {
      if files[0].None? {
        ReadMeaning(files[1..], budget);
      } else {
        var size := Min(|files[0].value|, budget);
        ReadMeaning(files[1..], budget - size);
        var skipped := TailIsSuffix(files[0].value, budget);
      }
    }
  }

  lemma ReadStep(files: seq<File>, n: nat, budget: nat)
    requires n < |files| && files[n].Some? && budget > 0
    ensures var content := files[n].value;
            var rest := budget - Min(|content|, budget);
            && Read(files[n..], budget) == Tail(content, budget) + Read(files[n + 1..], rest)
            && Min(Size(files[n..]), budget) == Min(|content|, budget) + Min(Size(files[n + 1..]), rest)
            && (Cut(files[n..], budget) <==> budget < |content| || Cut(files[n + 1..], rest))
  {
    assert files[n..][1..] == files[n + 1..];
  }

  /** The loop over the files. */
  method ScanFiles(files: seq<File>, maxBytes: nat, more: bool) returns (s: Scan)
    ensures s.lines == Read(files, maxBytes) && s.bytes == Min(Size(files), maxBytes)
    ensures s.partial <==> more || Cut(files, maxBytes)
  {
    s := Scan([], 0, more);
    assert files[0..] == files;
    for n := 0 to |files|
      invariant s.bytes <= maxBytes
      invariant s.lines + Read(files[n..], maxBytes - s.bytes) == Read(files, maxBytes)
      invariant s.bytes + Min(Size(files[n..]), maxBytes - s.bytes) == Min(Size(files), maxBytes)
      invariant s.partial || Cut(files[n..], maxBytes - s.bytes) <==> more || Cut(files, maxBytes)
    {
      assert files[n..][1..] == files[n + 1..];
      if files[n].None? { continue; }
      var content, remaining := files[n].value, maxBytes - s.bytes;
      if remaining == 0 {
        s := s.(partial := true);
        return s;
      }
      ReadStep(files, n, remaining);
      var size := Min(|content|, remaining);
      s := Scan(s.lines + Tail(content, remaining), s.bytes + size, s.partial || size < |content|);
    }
  }

  lemma {:induction false} EverythingPrefix(files: seq<File>, n: nat)
    requires n <= |files|
    ensures Size(files[..n]) <= Size(files)
    ensures forall line | line in Everything(files[..n]) :: line in Everything(files)
  {
    if n > 0 {
      EverythingPrefix(files[1..], n - 1);
      assert files[..n][1..] == files[1..][..n - 1];
    }
  }

  // ------------------------------------------------------------- bounded heap

  datatype Entry = Entry(stamp: string, index: nat, event: Event)

  predicate StringLess(a: string, b: string)
  {
    b != "" && (a == "" || a[0] < b[0] || (a[0] == b[0] && StringLess(a[1..], b[1..])))
  }

  lemma {:induction false} StringTotal(a: string, b: string)
    ensures StringLess(a, b) || StringLess(b, a) || a == b
    ensures !(StringLess(a, b) && StringLess(b, a)) && !StringLess(a, a)
  {
    if a != "" {
      StringTotal(a[1..], a[1..]);
      if b != "" && a[0] == b[0] {
        StringTotal(a[1..], b[1..]);
        assert a == [a[0]] + a[1..] && b == [b[0]] + b[1..];
      }
    }
  }

  lemma {:induction false} StringTransitive(a: string, b: string, c: string)
    requires StringLess(a, b) && StringLess(b, c)
    ensures StringLess(a, c)
  {
    if a != "" && a[0] == b[0] == c[0] { StringTransitive(a[1..], b[1..], c[1..]); }
  }

  /** Older: an earlier timestamp, or the same timestamp scanned earlier. */
  predicate Older(a: Entry, b: Entry)
  {
    StringLess(a.stamp, b.stamp) || (a.stamp == b.stamp && a.index < b.index)
  }

  lemma OlderTransitive(a: Entry, b: Entry, c: Entry)
    requires Older(a, b) && Older(b, c)
    ensures Older(a, c)
  {
    if StringLess(a.stamp, b.stamp) && StringLess(b.stamp, c.stamp) { StringTransitive(a.stamp, b.stamp, c.stamp); }
  }

  lemma OlderTotal(a: Entry, b: Entry)
    requires a.index != b.index
    ensures Older(a, b) != Older(b, a)
  {
    StringTotal(a.stamp, b.stamp);
  }

  predicate Ascending(h: seq<Entry>)
  {
    forall i | 0 < i < |h| :: Older(h[i - 1], h[i])
  }

  lemma {:induction false} AscendingAll(h: seq<Entry>, i: nat, j: nat)
    requires Ascending(h) && i < j < |h|
    ensures Older(h[i], h[j])
    decreases j
  {
    if i < j - 1 {
      AscendingAll(h, i, j - 1);
      OlderTransitive(h[i], h[j - 1], h[j]);
    }
  }

  /** heappush, on the heap's entries in ascending order. */
  function Push(h: seq<Entry>, e: Entry): seq<Entry>
  {
    if h == [] || Older(e, h[0]) then [e] + h else [h[0]] + Push(h[1..], e)
  }

  lemma {:induction false} PushAscends(h: seq<Entry>, e: Entry)
    requires Ascending(h) && forall i | 0 <= i < |h| :: h[i].index != e.index
    ensures Ascending(Push(h, e)) && |Push(h, e)| == |h| + 1
    ensures Push(h, e)[0] == e || (h != [] && Push(h, e)[0] == h[0])
    ensures forall x :: x in Push(h, e) <==> x in h || x == e
  {
    if h != [] && !Older(e, h[0]) {
      OlderTotal(e, h[0]);
      PushAscends(h[1..], e);
    }
  }

  /** The heap holds matched entries, as many as fit, and what it left out is older than its least entry. */
  ghost predicate Kept(h: seq<Entry>, matched: set<Entry>, limit: nat)
  {
    && Ascending(h) && |h| == (if |matched| < limit then |matched| else limit)
    && (forall x | x in h :: x in matched)
    && (h != [] ==> forall x | x in matched && x !in h :: Older(x, h[0]))
  }

  function Reversed<T>(s: seq<T>): seq<T>
  {
    seq(|s|, i requires 0 <= i < |s| => s[|s| - 1 - i])
  }

  /** The newest `limit` of the matched entries, newest first: nothing left out is newer than anything listed. */
  ghost predicate Newest(list: seq<Entry>, matched: set<Entry>, limit: nat)
  {
    && |list| == (if |matched| < limit then |matched| else limit)
    && (forall i, j | 0 <= i < j < |list| :: Older(list[j], list[i]))
    && (forall x | x in list :: x in matched)
    && (forall x, y | x in matched && x !in list && y in list :: Older(x, y))
  }

  lemma KeptIsNewest(h: seq<Entry>, matched: set<Entry>, limit: nat)
    requires Kept(h, matched, limit)
    ensures Newest(Reversed(h), matched, limit)
    ensures forall x :: x in Reversed(h) <==> x in h
  {
    var list := Reversed(h);
    forall i, j | 0 <= i < j < |list| ensures Older(list[j], list[i]) { AscendingAll(h, |h| - 1 - j, |h| - 1 - i); }
    forall x ensures x in list <==> x in h {
      if x in h { var i :| 0 <= i < |h| && h[i] == x; assert list[|h| - 1 - i] == x; }
    }
    forall x, y | x in matched && x !in list && y in list ensures Older(x, y) {
      var i :| 0 <= i < |h| && h[i] == y;
      if i > 0 {
        AscendingAll(h, 0, i);
        OlderTransitive(x, h[0], y);
      }
    }
  }

  /** One round of the heap. */
  method Keep(h: seq<Entry>, e: Entry, limit: nat, ghost matched: set<Entry>) returns (r: seq<Entry>)
    requires limit > 0 && Kept(h, matched, limit) && forall x | x in matched :: x.index != e.index
    ensures Kept(r, matched + {e}, limit)
  {
    if |h| < limit {
      AllKept(h, matched);
      PushAscends(h, e);
      r := Push(h, e);
    } else if Older(h[0], e) {
      PushAscends(h[1..], e);
      r := Push(h[1..], e);
      forall x | x in matched + {e} && x !in r ensures Older(x, r[0]) {
        assert x == h[0] || x !in h;
        if x != h[0] { OlderTransitive(x, h[0], r[0]); }
      }
    } else {
      OlderTotal(h[0], e);
      r := h;
    }
  }

  /** Below the limit nothing was dropped. */
  lemma AllKept(h: seq<Entry>, matched: set<Entry>)
    requires Ascending(h) && |h| >= |matched| && forall x | x in h :: x in matched
    ensures forall x | x in matched :: x in h
  {
    SetOf(h);
    var kept := set x | x in h;
    if exists x :: x in matched && x !in h {
      var x :| x in matched && x !in h;
      Subset(kept, matched - {x});
    }
  }

  lemma {:induction false} SetOf(h: seq<Entry>)
    requires Ascending(h)
    ensures |set x | x in h| == |h|
  {
    if h == [] {
      assert (set x | x in h) == {};
    } else {
      SetOf(h[1..]);
      assert (set x | x in h) == {h[0]} + set x | x in h[1..];
      if h[0] in h[1..] {
        var i :| 0 < i < |h| && h[i] == h[0];
        AscendingAll(h, 0, i);
        StringTotal(h[0].stamp, h[0].stamp);
      }
    }
  }

  lemma {:induction false} Subset<T>(a: set<T>, b: set<T>)
    requires a <= b
    ensures |a| <= |b|
    decreases a
  {
    if a != {} {
      var x :| x in a;
      Subset(a - {x}, b - {x});
    }
  }

  // ------------------------------------------------------------------- query

  function Clamp(low: int, high: int, configured: int): int
  {
    if configured < low then low else if configured > high then high else configured
  }

  /** The page answered: the entries newest first, and how much was looked at. */
  datatype Page = Page(entries: seq<Entry>, truncated: bool, scanned: nat, bytes: nat)

  predicate Hit(line: string, parse: string -> Option<Event>, f: Filter)
  {
    parse(line).Some? && Passes(parse(line).value, f)
  }

  function EntryOf(line: string, index: nat, parse: string -> Option<Event>): Entry
    requires parse(line).Some?
  {
    Entry(parse(line).value.stamp, index, parse(line).value)
  }

  /** Everything that matched among these lines, with its position in the scan. */
  function Matches(lines: seq<string>, parse: string -> Option<Event>, f: Filter): (r: set<Entry>)
    ensures forall x | x in r :: 1 <= x.index <= |lines|
  {
    if lines == [] then {} else
      var line := lines[|lines| - 1];
      Matches(lines[..|lines| - 1], parse, f) + (if Hit(line, parse, f) then {EntryOf(line, |lines|, parse)} else {})
  }

  lemma {:induction false} MatchesIff(lines: seq<string>, parse: string -> Option<Event>, f: Filter, x: Entry)
    ensures x in Matches(lines, parse, f) <==>
              1 <= x.index <= |lines| && Hit(lines[x.index - 1], parse, f) &&
                x == EntryOf(lines[x.index - 1], x.index, parse)
    decreases |lines|
  {
    if lines != [] {
      var front := lines[..|lines| - 1];
      MatchesIff(front, parse, f, x);
      if 1 <= x.index <= |front| { assert front[x.index - 1] == lines[x.index - 1]; }
    }
  }

  lemma MatchesSnoc(lines: seq<string>, line: string, parse: string -> Option<Event>, f: Filter)
    ensures Matches(lines + [line], parse, f) ==
            Matches(lines, parse, f) + (if Hit(line, parse, f) then {EntryOf(line, |lines| + 1, parse)} else {})
  {
    assert (lines + [line])[..|lines|] == lines;
  }

  /** The loop over the lines. */
  method Collect(lines: seq<string>, parse: string -> Option<Event>, f: Filter, limit: nat)
    returns (h: seq<Entry>, matched: nat)
    requires limit > 0
    ensures Kept(h, Matches(lines, parse, f), limit) && matched == |Matches(lines, parse, f)|
  {
    h, matched := [], 0;
    for n := 0 to |lines|
      invariant Kept(h, Matches(lines[..n], parse, f), limit) && matched == |Matches(lines[..n], parse, f)|
    {
      MatchesSnoc(lines[..n], lines[n], parse, f);
      assert lines[..n + 1] == lines[..n] + [lines[n]];
      h, matched := Examine(h, matched, lines[n], n + 1, parse, f, limit, Matches(lines[..n], parse, f));
    }
    assert lines[..|lines|] == lines;
  }

  /** The body of the loop. */
  method Examine(h: seq<Entry>, matched: nat, line: string, scanned: nat, parse: string -> Option<Event>, f: Filter,
                 limit: nat, ghost before: set<Entry>) returns (h': seq<Entry>, matched': nat)
    requires limit > 0 && Kept(h, before, limit) && matched == |before| && forall x | x in before :: x.index < scanned
    ensures var after := before + if Hit(line, parse, f) then {EntryOf(line, scanned, parse)} else {};
            Kept(h', after, limit) && matched' == |after|
  {
    h', matched' := h, matched;
    if Hit(line, parse, f) {
      h' := Keep(h, EntryOf(line, scanned, parse), limit, before);
      matched' := matched + 1;
    }
  }

  /**
   `candidates` are newest first. The page holds the newest `limit` of all matches among the lines read, newest
   first; when it is not marked as truncated it holds every match of every candidate.
   */
  method Query(candidates: seq<File>, fileLimit: int, byteLimit: int, parse: string -> Option<Event>, f: Filter,
               limit: nat)
    returns (page: Page)
    requires limit > 0
    ensures var files := candidates[..Min(|candidates|, Clamp(1, 500, fileLimit))];
            var maxBytes := Clamp(0x10_0000, 0x1000_0000, byteLimit);
            var lines := Read(files, maxBytes);
            && Newest(page.entries, Matches(lines, parse, f), limit)
            && (page.truncated <==>
                |Matches(lines, parse, f)| > limit || |candidates| > |files| || Cut(files, maxBytes))
            && page.scanned == |lines| && page.bytes == Min(Size(files), maxBytes) <= maxBytes
            && (forall line | line in lines :: line in Everything(candidates))
            && (Size(candidates) > maxBytes ==> page.truncated)
    ensures !page.truncated ==> forall x :: x in page.entries <==> x in Matches(Everything(candidates), parse, f)
  {
    var maxFiles, maxBytes := Clamp(1, 500, fileLimit), Clamp(0x10_0000, 0x1000_0000, byteLimit);
    var files := candidates[..Min(|candidates|, maxFiles)];
    var s := ScanFiles(files, maxBytes, |candidates| > |files|);
    ReadMeaning(files, maxBytes);
    EverythingPrefix(candidates, |files|);
    assert |files| == |candidates| ==> files == candidates;
    var h, matched := Collect(s.lines, parse, f, limit);
    page := Page(Reversed(h), matched > limit || s.partial, |s.lines|, s.bytes);
    KeptIsNewest(h, Matches(s.lines, parse, f), limit);
    if !page.truncated { AllKept(h, Matches(s.lines, parse, f)); }
  }
}
