/** parseTOMLLines and setTOMLRaw of home.go: the table bodies of a file, and the update
    of one key. */
module TomlEdit {
  import opened Collections
  import opened TomlText
  import opened Toml
  import opened TomlFold
  import JsonRpc

  const NUL := '\0'

  // -------------------------------------------------------------------- bodies

  /** A line that closes a table body: a header or an array of tables. */
  predicate Opens(line: string) {
    Header(line).Some? || IsArray(Trim(line))
  }

  /** The first body of a table: the lines from behind its first header, or from the
      top of the file for the table without name, to the next opening line. */
  ghost predicate IsFirstBody(lines: seq<string>, table: string, body: (int, int)) {
    && 0 <= body.0 <= body.1 <= |lines|
    && (if table == "" then body.0 == 0 else body.0 > 0 && Header(lines[body.0 - 1]) == Some(table))
    && Headers(lines[..body.0], table) == (if table == "" then 0 else 1)
    && (forall i :: body.0 <= i < body.1 ==> !Opens(lines[i]))
    && (body.1 < |lines| ==> Opens(lines[body.1]))
  }

  ghost predicate AreBodies(lines: seq<string>, bodies: map<string, (int, int)>) {
    && (forall t :: t in bodies ==> 0 <= bodies[t].0 <= bodies[t].1 <= |lines|)
    && (forall t :: t in bodies && !StartsWith(t, NUL) ==> IsFirstBody(lines, t, bodies[t]))
    && (forall t :: t !in bodies && !StartsWith(t, NUL) ==> t != "" && Headers(lines, t) == 0)
  }

  /** The body that is open after the lines seen so far. */
  ghost predicate IsOpen(seen: seq<string>, bodies: map<string, (int, int)>, cur: string, start: int) {
    && 0 <= start <= |seen|
    && (forall i :: start <= i < |seen| ==> !Opens(seen[i]))
    && (cur !in bodies && !StartsWith(cur, NUL) ==> IsFirstBody(seen, cur, (start, |seen|)))
  }

  /** The bodies that are closed by now, in a file of which `seen` is the start. */
  ghost predicate AreClosed(seen: seq<string>, bodies: map<string, (int, int)>, cur: string) {
    && (forall t :: t in bodies ==> 0 <= bodies[t].0 <= bodies[t].1 <= |seen|)
    && (forall t :: t in bodies && !StartsWith(t, NUL) ==> IsFirstBody(seen, t, bodies[t]) && bodies[t].1 < |seen|)
    && (forall t :: t !in bodies && t != cur && !StartsWith(t, NUL) ==> t != "" && Headers(seen, t) == 0)
  }

  lemma {:induction false} FirstBodyGrows(seen: seq<string>, table: string, body: (int, int), x: string)
    requires IsFirstBody(seen, table, body)
    requires body.1 < |seen| || Opens(x)
    ensures IsFirstBody(seen + [x], table, body)
  {
    assert (seen + [x])[..body.0] == seen[..body.0];
  }

  lemma {:induction false} OpenBodyGrows(seen: seq<string>, table: string, start: int, x: string)
    requires 0 <= start <= |seen| && IsFirstBody(seen, table, (start, |seen|)) && !Opens(x)
    ensures IsFirstBody(seen + [x], table, (start, |seen| + 1))
  {
    assert (seen + [x])[..start] == seen[..start];
  }

  lemma {:induction false} ClosedGrows(seen: seq<string>, bodies: map<string, (int, int)>, cur: string, x: string)
    requires AreClosed(seen, bodies, cur) && !Opens(x)
    ensures AreClosed(seen + [x], bodies, cur)
  {
    HeadersNext(seen, x);
    forall t | t in bodies && !StartsWith(t, NUL) ensures IsFirstBody(seen + [x], t, bodies[t]) {
      FirstBodyGrows(seen, t, bodies[t], x);
    }
  }

  lemma {:induction false} ClosedByOpening(seen: seq<string>, bodies: map<string, (int, int)>, cur: string,
                                           start: int, x: string, next: string)
    requires AreClosed(seen, bodies, cur) && IsOpen(seen, bodies, cur, start) && Opens(x)
    requires Header(x) == Some(next) || (Header(x) == None && StartsWith(next, NUL))
    ensures var bodies' := if cur in bodies then bodies else bodies[cur := (start, |seen|)];
      AreClosed(seen + [x], bodies', next) && IsOpen(seen + [x], bodies', next, |seen| + 1)
  {
    HeadersNext(seen, x);
    var bodies' := if cur in bodies then bodies else bodies[cur := (start, |seen|)];
    forall t | t in bodies' && !StartsWith(t, NUL) ensures IsFirstBody(seen + [x], t, bodies'[t]) {
      FirstBodyGrows(seen, t, bodies'[t], x);
    }
    assert (seen + [x])[..|seen| + 1] == seen + [x];
  }

  lemma {:induction false} BodiesAtEnd(lines: seq<string>, bodies: map<string, (int, int)>, cur: string, start: int)
    requires AreClosed(lines, bodies, cur) && IsOpen(lines, bodies, cur, start)
    ensures AreBodies(lines, if cur in bodies then bodies else bodies[cur := (start, |lines|)])
  {
  }

  /** The variables of the parsing loop. */
  datatype Parse = Parse(bodies: map<string, (int, int)>, cur: string, start: int)

  function CloseBody(p: Parse, end: int): map<string, (int, int)> {
    if p.cur in p.bodies then p.bodies else p.bodies[p.cur := (p.start, end)]
  }

  function ParseLine(p: Parse, i: nat, line: string): Parse {
    if Opens(line) then
      Parse(CloseBody(p, i), if Header(line).Some? then Header(line).value else [NUL] + JsonRpc.Decimal(i), i + 1)
    else p
  }

  function ParseAll(lines: seq<string>): Parse {
    if lines == [] then Parse(map[], "", 0)
    else ParseLine(ParseAll(lines[..|lines| - 1]), |lines| - 1, lines[|lines| - 1])
  }

  ghost predicate Parsing(seen: seq<string>, p: Parse) {
    AreClosed(seen, p.bodies, p.cur) && IsOpen(seen, p.bodies, p.cur, p.start)
  }

  lemma {:induction false} ParsingByLine(seen: seq<string>, p: Parse, x: string)
    requires Parsing(seen, p)
    ensures Parsing(seen + [x], ParseLine(p, |seen|, x))
  {
    if Opens(x) {
      ClosedByOpening(seen, p.bodies, p.cur, p.start, x, ParseLine(p, |seen|, x).cur);
    } else {
      ClosedGrows(seen, p.bodies, p.cur, x);
      if p.cur !in p.bodies && !StartsWith(p.cur, NUL) {
        OpenBodyGrows(seen, p.cur, p.start, x);
      }
    }
  }

  lemma {:induction false} ParsingByAll(lines: seq<string>)
    ensures Parsing(lines, ParseAll(lines))
  {
    if lines != [] {
      var before := lines[..|lines| - 1];
      ParsingByAll(before);
      ParsingByLine(before, ParseAll(before), lines[|lines| - 1]);
      assert lines == before + [lines[|lines| - 1]];
    }
  }

  lemma {:induction false} ParsedBodies(lines: seq<string>)
    ensures AreBodies(lines, CloseBody(ParseAll(lines), |lines|))
  {
    var p := ParseAll(lines);
    ParsingByAll(lines);
    BodiesAtEnd(lines, p.bodies, p.cur, p.start);
  }

  method ParseLines(s: string) returns (lines: seq<string>, bodies: map<string, (int, int)>)
    ensures lines == Split(s) && AreBodies(lines, bodies)
  {
    lines, bodies := Split(s), map[];
    var cur, start := "", 0;
    for i := 0 to |lines|
      invariant Parse(bodies, cur, start) == ParseAll(lines[..i])
    {
      var line := lines[i];
      assert lines[..i + 1][..i] == lines[..i];
      var trim := Trim(line);
      if IsHeader(trim) {
        if cur !in bodies {
          bodies := bodies[cur := (start, i)];
        }
        cur, start := HeaderName(trim), i + 1;
      } else if IsArray(trim) {
        if cur !in bodies {
          bodies := bodies[cur := (start, i)];
        }
        cur, start := [NUL] + JsonRpc.Decimal(i), i + 1;
      }
    }
    assert lines[..|lines|] == lines;
    ParsedBodies(lines);
    if cur !in bodies {
      bodies := bodies[cur := (start, |lines|)];
    }
  }

  // ----------------------------------------------------------- lines and values

  /** What setTOMLRaw and removeTOMLKey look for in a body. */
  predicate Carries(line: string, key: string) {
    KeyValue(line).Some? && KeyValue(line).value.0 == key
  }

  /** A table name that its header line gives back. */
  predicate IsName(table: string) {
    Trimmed(table) && !StartsWith(table, '[') && !StartsWith(table, NUL) && NEWLINE !in table
  }

  /** A dotted key that is put together again from its table and its key. */
  predicate Canonical(d: string) {
    var (table, key) := SplitKey(d);
    Dotted(table, key) == d && IsName(table)
  }

  /** A key and a raw value that fit on one line: neither a comment nor a header,
      and no equals sign in the key. */
  predicate Writable(d: string, raw: string) {
    var (_, key) := SplitKey(d);
    && Canonical(d)
    && Trimmed(key) && '=' !in key && NEWLINE !in key && !StartsWith(key, '#') && !StartsWith(key, '[')
    && Trimmed(raw) && NEWLINE !in raw
  }

  /** What a trimmed line `key = raw` has on either side of the equals sign. */
  function Left(key: string): string {
    if key == "" then "" else key + " "
  }

  function Right(raw: string): string {
    if raw == "" then "" else " " + raw
  }

  lemma {:induction false} TrimmedOnTheLeft(key: string, raw: string)
    requires Trimmed(key)
    ensures TrimLeft(key + " = " + raw) == Left(key) + "= " + raw
  {
    var line, left := key + " = " + raw, Left(key) + "= " + raw;
    if key == "" {
      assert line[1..] == left;
    } else {
      assert line == left;
    }
  }

  lemma {:induction false} TrimmedOnTheRight(a: string, raw: string)
    requires Trimmed(raw)
    ensures TrimRight(a + "= " + raw) == a + "=" + Right(raw)
  {
    var left := a + "= " + raw;
    if raw == "" {
      assert left[..|left| - 1] == a + "=";
    } else {
      assert left == a + "=" + Right(raw) && left[|left| - 1] == raw[|raw| - 1];
    }
  }

  lemma {:induction false} TrimmedLine(key: string, raw: string)
    requires Trimmed(key) && Trimmed(raw)
    ensures Trim(key + " = " + raw) == Left(key) + "=" + Right(raw)
  {
    TrimmedOnTheLeft(key, raw);
    TrimmedOnTheRight(Left(key), raw);
  }

  lemma {:induction false} WrittenLine(d: string, raw: string)
    requires Writable(d, raw)
    ensures var key := SplitKey(d).1; var line := key + " = " + raw;
      Entry(line) == Some((key, raw)) && GoodLine(line) && !Opens(line) && NEWLINE !in line && Carries(line, key)
  {
    var key := SplitKey(d).1;
    var line := key + " = " + raw;
    SplitKeyFacts(d);
    TrimmedLine(key, raw);
    TrimPadded(key);
    TrimPadded(raw);
    CutAt(Left(key), Right(raw));
    assert Trim(line)[0] == if key == "" then '=' else key[0];
  }

  /** A line with the key is a comment, or gives the key a value. */
  lemma {:induction false} CarrierEntry(line: string, key: string)
    requires !Opens(line)
    ensures Carries(line, key) && !StartsWith(key, '#') ==> Entry(line).Some? && Entry(line).value.0 == key
    ensures Carries(line, key) && StartsWith(key, '#') ==> Entry(line) == None
    ensures Entry(line).Some? && Entry(line).value.0 == key ==> Carries(line, key) && !StartsWith(key, '#')
  {
    var trim := Trim(line);
    TrimFacts(line);
    CutFacts(trim);
    if Cut(trim).Some? {
      var a := Cut(trim).value.0;
      if a != "" {
        assert trim[0] == a[0];
        TrimKeepsFirst(a);
      }
    }
  }

  lemma {:induction false} HeaderLine(table: string)
    requires IsName(table) && table != ""
    ensures Header("[" + table + "]") == Some(table) && GoodLine("[" + table + "]") && NEWLINE !in "[" + table + "]"
  {
    var line := "[" + table + "]";
    assert line[|line| - 1] == ']' && line[0] == '[' && line[1] == table[0];
    assert line[1..|line| - 1] == table;
  }

  /** A table that is not open, and that no header opens, gets no values. */
  lemma {:induction false} NeverOpen(lines: seq<string>, open: string, table: string)
    requires WellFormed(lines) && open != table && Headers(lines, table) == 0
    ensures TableAfter(lines, open) != table
    ensures Silent(lines, open, table)
  {
    if lines != [] {
      var before, x := lines[..|lines| - 1], lines[|lines| - 1];
      NeverOpen(before, open, table);
      forall d | TableOf(d) == table && ValueOf(x, TableAfter(before, open), d) != [] ensures false {
        ValueInOwnTable(x, TableAfter(before, open), d);
      }
    }
  }

  /** The same, where the first line is the header of another table. */
  lemma {:induction false} NotReopened(lines: seq<string>, table: string)
    requires WellFormed(lines) && Headers(lines, table) == 0 && (lines != [] ==> Opens(lines[0]))
    ensures Silent(lines, table, table)
  {
    if lines != [] {
      var x, rest := lines[0], lines[1..];
      assert lines == [x] + rest;
      HeadersAppend([x], rest, table);
      HeadersNext([], x);
      HistoryNext([], x, table);
      assert [] + [x] == [x];
      NeverOpen(rest, Header(x).value, table);
      forall d | TableOf(d) == table ensures History(lines, table, d) == [] {
        HistoryAppend([x], rest, table, d);
      }
    }
  }

  lemma {:induction false} NoNameless(lines: seq<string>)
    requires WellFormed(lines)
    ensures Headers(lines, "") == 0
  {
    if lines != [] {
      NoNameless(lines[..|lines| - 1]);
    }
  }

  // ------------------------------------------------------- around one position

  /** Histories and headers when a line that opens nothing stands between two
      parts of a file, and when it does not. */
  lemma {:induction false} Around(a: seq<string>, x: string, c: seq<string>, d: string)
    requires !Opens(x)
    ensures History(a + [x] + c, "", d) ==
      History(a, "", d) + ValueOf(x, TableAfter(a, ""), d) + History(c, TableAfter(a, ""), d)
  {
    HistoryNext(a, x, "");
    HistoryAppend(a + [x], c, "", d);
  }

  lemma {:induction false} HeadersAround(a: seq<string>, x: string, c: seq<string>, t: string)
    requires !Opens(x)
    ensures Headers(a + [x] + c, t) == Headers(a + c, t)
  {
    HeadersNext(a, x);
    HeadersAppend(a + [x], c, t);
    HeadersAppend(a, c, t);
  }

  /** A line without a value for d makes no difference to d. */
  lemma {:induction false} WithoutValue(a: seq<string>, x: string, c: seq<string>, d: string)
    requires !Opens(x) && ValueOf(x, TableAfter(a, ""), d) == []
    ensures History(a + [x] + c, "", d) == History(a + c, "", d)
  {
    Around(a, x, c, d);
    HistoryAppend(a, c, "", d);
    assert History(a, "", d) + [] == History(a, "", d);
  }

  /** Before the first body its table is not open. */
  lemma {:induction false} BeforeBody(lines: seq<string>, table: string, body: (int, int), i: int)
    requires WellFormed(lines) && IsFirstBody(lines, table, body) && 0 <= i <= body.0
    ensures Silent(lines[..i], "", table)
    ensures i == body.0 ==> TableAfter(lines[..i], "") == table
  {
    if table != "" {
      var before, x := lines[..body.0 - 1], lines[body.0 - 1];
      assert lines[..body.0] == before + [x];
      HeadersNext(before, x);
      HistoryNext(before, x, "");
      if i < body.0 {
        assert before == before[..i] + before[i..] && before[..i] == lines[..i];
        HeadersAppend(before[..i], before[i..], table);
        NeverOpen(lines[..i], "", table);
      } else {
        NeverOpen(before, "", table);
      }
    } else {
      assert lines[..i] == [];
    }
  }

  /** A line that carries the key gives a value to d in its table, and to nothing else. */
  lemma {:induction false} CarrierValue(x: string, d: string)
    requires Canonical(d) && Entry(x).Some? && Entry(x).value.0 == SplitKey(d).1
    ensures GivesOnly(x, d, Entry(x).value.1)
  {
  }

  ghost predicate GivesOnly(x: string, d: string, raw: string) {
    && ValueOf(x, TableOf(d), d) == [raw]
    && forall d' :: d' != d ==> ValueOf(x, TableOf(d), d') == []
  }

  lemma {:induction false} NoCarrierNoValue(x: string, d: string)
    requires GoodLine(x) && !Opens(x) && !Carries(x, SplitKey(d).1)
    ensures ValueOf(x, TableOf(d), d) == []
  {
    CarrierEntry(x, SplitKey(d).1);
    if ValueOf(x, TableOf(d), d) != [] {
      SplitDotted(TableOf(d), Entry(x).value.0);
    }
  }

  lemma {:induction false} SilentNext(a: seq<string>, x: string, d: string)
    requires TableAfter(a, "") == TableOf(d)
    requires GoodLine(x) && !Opens(x) && !Carries(x, SplitKey(d).1)
    ensures TableAfter(a + [x], "") == TableOf(d)
    ensures History(a + [x], "", d) == History(a, "", d)
    ensures Headers(a + [x], TableOf(d)) == Headers(a, TableOf(d))
  {
    HistoryNext(a, x, "");
    HeadersNext(a, x);
    NoCarrierNoValue(x, d);
  }

  /** Good lines that open nothing and do not carry the key. */
  ghost predicate Quiet(lines: seq<string>, key: string) {
    forall i :: 0 <= i < |lines| ==> GoodLine(lines[i]) && !Opens(lines[i]) && !Carries(lines[i], key)
  }

  lemma {:induction false} SilentStretch(a: seq<string>, lines: seq<string>, d: string)
    requires TableAfter(a, "") == TableOf(d) && Quiet(lines, SplitKey(d).1)
    ensures TableAfter(a + lines, "") == TableOf(d)
    ensures History(a + lines, "", d) == History(a, "", d)
    ensures Headers(a + lines, TableOf(d)) == Headers(a, TableOf(d))
    decreases |lines|
  {
    if lines == [] {
      assert a + lines == a;
    } else {
      var before, x := lines[..|lines| - 1], lines[|lines| - 1];
      SumAssociates(a, before, [x]);
      assert lines == before + [x];
      SilentStretch(a, before, d);
      SilentNext(a + before, x, d);
    }
  }

  /** In the first body its table is open; up to a place where nothing carries the
      key, the key has no value. */
  lemma {:induction false} InBody(lines: seq<string>, body: (int, int), i: int, d: string)
    requires WellFormed(lines) && IsFirstBody(lines, TableOf(d), body) && body.0 <= i <= body.1
    requires forall j :: body.0 <= j < i ==> !Carries(lines[j], SplitKey(d).1)
    ensures TableAfter(lines[..i], "") == TableOf(d)
    ensures History(lines[..i], "", d) == []
    ensures Headers(lines[..i], TableOf(d)) <= 1
  {
    BeforeBody(lines, TableOf(d), body, body.0);
    CutBefore(lines, body.0, i);
    SilentStretch(lines[..body.0], lines[body.0..i], d);
  }

  lemma {:induction false} CutBefore(lines: seq<string>, from: int, to: int)
    requires 0 <= from <= to <= |lines|
    ensures lines[..to] == lines[..from] + lines[from..to]
    ensures forall j :: 0 <= j < to - from ==> lines[from..to][j] == lines[from + j]
  {
  }

  lemma {:induction false} NoSecondHeader(lines: seq<string>, table: string, b0: nat, b1: nat, i: nat)
    requires b0 <= b1 <= i <= |lines| && Headers(lines[..b0], table) == 1 && Headers(lines[..i], table) <= 1
    ensures Headers(lines[b1..i], table) == 0
  {
    HeadersUpTo(lines, table, b0, b1);
    HeadersUpTo(lines, table, b1, i);
  }

  lemma {:induction false} HeadersUpTo(lines: seq<string>, table: string, i: nat, j: nat)
    requires i <= j <= |lines|
    ensures Headers(lines[..j], table) == Headers(lines[..i], table) + Headers(lines[i..j], table)
  {
    assert lines[..j] == lines[..i] + lines[i..j];
    HeadersAppend(lines[..i], lines[i..j], table);
  }

  lemma {:induction false} HeadersBehind(lines: seq<string>, table: string, body: (int, int), i: int)
    requires WellFormed(lines) && IsFirstBody(lines, table, body) && body.1 <= i <= |lines|
    requires Headers(lines[..i], table) <= 1
    ensures Headers(lines[body.1..i], table) == 0
  {
    if table == "" {
      NoNameless(lines[body.1..i]);
    } else {
      NoSecondHeader(lines, table, body.0, body.1, i);
    }
  }

  /** Behind the first body, in a stretch without another copy, the table is silent. */
  lemma {:induction false} BehindBody(lines: seq<string>, d: string, body: (int, int), i: int)
    requires WellFormed(lines) && IsFirstBody(lines, TableOf(d), body) && body.1 <= i <= |lines|
    requires Headers(lines[..i], TableOf(d)) <= 1
    ensures History(lines[body.1..i], TableOf(d), d) == []
  {
    HeadersBehind(lines, TableOf(d), body, i);
    NotReopened(lines[body.1..i], TableOf(d));
  }

  // ----------------------------------------------------------------------- set

  function Tail(values: seq<string>): seq<string> {
    if values == [] then [] else values[1..]
  }

  /** Every line that has text and is neither a header of the table nor a carrier
      of the key is still there, as often as before. */
  ghost predicate OthersStay(before: seq<string>, d: string, after: seq<string>) {
    forall x :: Trim(x) != "" && Header(x) != Some(TableOf(d)) && !Carries(x, SplitKey(d).1)
      ==> multiset(after)[x] == multiset(before)[x]
  }

  ghost predicate OthersSay(before: seq<string>, d: string, after: seq<string>) {
    forall d' :: d' != d ==> History(after, "", d') == History(before, "", d')
  }

  /** The lines end with text, or there are none. */
  predicate EndsWithText(lines: seq<string>) {
    lines == [] || Trim(lines[|lines| - 1]) != ""
  }

  /** A new line stands right behind text: its header or the last line of its body
      that is not blank; or at the top of the file. */
  ghost predicate Placed(lines: seq<string>, line: string) {
    exists p :: 0 <= p < |lines| && lines[p] == line && EndsWithText(lines[..p])
  }

  /** What setting d to a raw value promises: the first value of d is replaced, or
      the only one made, behind text; no other key, header or line of text changes;
      one copy of the table is left. */
  ghost predicate IsSet(before: seq<string>, d: string, raw: string, after: seq<string>) {
    && WellFormed(after)
    && History(after, "", d) == [raw] + Tail(History(before, "", d))
    && OthersSay(before, d, after)
    && (forall t :: t != TableOf(d) ==> Headers(after, t) == Headers(before, t))
    && (TableOf(d) != "" ==> Headers(after, TableOf(d)) == 1)
    && OthersStay(before, d, after)
    && (History(before, "", d) == [] ==> Placed(after, SplitKey(d).1 + " = " + raw))
  }

  lemma {:induction false} PlacedBehind(a: seq<string>, line: string, c: seq<string>)
    requires EndsWithText(a)
    ensures Placed(a + [line] + c, line)
  {
    var all := a + [line] + c;
    assert all[..|a|] == a && all[|a|] == line;
  }

  lemma {:induction false} SaysReplaced(a: seq<string>, x: string, line: string, c: seq<string>, d: string,
                                        was: string, raw: string)
    requires TableAfter(a, "") == TableOf(d) && History(a, "", d) == []
    requires !Opens(x) && GivesOnly(x, d, was)
    requires !Opens(line) && GivesOnly(line, d, raw)
    ensures History(a + [x] + c, "", d) != []
    ensures History(a + [line] + c, "", d) == [raw] + Tail(History(a + [x] + c, "", d))
    ensures OthersSay(a + [x] + c, d, a + [line] + c)
    ensures forall t :: Headers(a + [line] + c, t) == Headers(a + [x] + c, t)
  {
    Around(a, x, c, d);
    Around(a, line, c, d);
    forall d' | d' != d ensures History(a + [line] + c, "", d') == History(a + [x] + c, "", d') {
      WithoutValue(a, x, c, d');
      WithoutValue(a, line, c, d');
    }
    forall t ensures Headers(a + [line] + c, t) == Headers(a + [x] + c, t) {
      HeadersAround(a, x, c, t);
      HeadersAround(a, line, c, t);
    }
  }

  lemma {:induction false} SaysInserted(a: seq<string>, line: string, c: seq<string>, d: string, raw: string)
    requires TableAfter(a, "") == TableOf(d) && History(a + c, "", d) == []
    requires !Opens(line) && GivesOnly(line, d, raw)
    ensures History(a + [line] + c, "", d) == [raw]
    ensures OthersSay(a + c, d, a + [line] + c)
    ensures forall t :: Headers(a + [line] + c, t) == Headers(a + c, t)
  {
    Around(a, line, c, d);
    HistoryAppend(a, c, "", d);
    forall d' | d' != d ensures History(a + [line] + c, "", d') == History(a + c, "", d') {
      WithoutValue(a, line, c, d');
    }
    forall t ensures Headers(a + [line] + c, t) == Headers(a + c, t) {
      HeadersAround(a, line, c, t);
    }
  }

  lemma {:induction false} PartsAreWellFormed(a: seq<string>, c: seq<string>, x: string, line: string)
    requires GoodLine(line)
    ensures WellFormed(a + [x] + c) ==> WellFormed(a + [line] + c) && WellFormed(a + c)
    ensures WellFormed(a + c) ==> WellFormed(a + [line] + c)
  {
    var with, without := a + [x] + c, a + c;
    assert forall i :: 0 <= i < |a| ==> with[i] == a[i] == without[i];
    assert forall i :: 0 <= i < |c| ==> with[|a| + 1 + i] == c[i] == without[|a| + i];
  }

  lemma {:induction false} SetReplaced(lines: seq<string>, d: string, raw: string, body: (int, int), i: int)
    requires WellFormed(lines) && Writable(d, raw) && IsFirstBody(lines, TableOf(d), body)
    requires TableOf(d) != "" ==> Headers(lines, TableOf(d)) == 1
    requires body.0 <= i < body.1 && Carries(lines[i], SplitKey(d).1)
    requires forall j :: body.0 <= j < i ==> !Carries(lines[j], SplitKey(d).1)
    ensures IsSet(lines, d, raw, lines[i := SplitKey(d).1 + " = " + raw])
  {
    InBody(lines, body, i, d);
    LineReplaced(lines, i, SplitKey(d).1 + " = " + raw);
    SetBetween(lines[..i], lines[i], lines[i + 1..], d, raw);
  }

  lemma {:induction false} LineReplaced(lines: seq<string>, i: nat, line: string)
    requires i < |lines|
    ensures lines == lines[..i] + [lines[i]] + lines[i + 1..]
    ensures lines[i := line] == lines[..i] + [line] + lines[i + 1..]
  {
  }

  lemma {:induction false} SetBetween(a: seq<string>, x: string, c: seq<string>, d: string, raw: string)
    requires Writable(d, raw) && WellFormed(a + [x] + c)
    requires TableAfter(a, "") == TableOf(d) && History(a, "", d) == []
    requires TableOf(d) != "" ==> Headers(a + [x] + c, TableOf(d)) == 1
    requires !Opens(x) && Carries(x, SplitKey(d).1)
    ensures IsSet(a + [x] + c, d, raw, a + [SplitKey(d).1 + " = " + raw] + c)
  {
    var line := SplitKey(d).1 + " = " + raw;
    WrittenLine(d, raw);
    CarrierEntry(x, SplitKey(d).1);
    CarrierValue(x, d);
    CarrierValue(line, d);
    SaysReplaced(a, x, line, c, d, Entry(x).value.1, raw);
    OthersReplaced(a, x, line, c, d);
    PartsAreWellFormed(a, c, x, line);
  }

  lemma {:induction false} OthersReplaced(a: seq<string>, x: string, line: string, c: seq<string>, d: string)
    requires Carries(x, SplitKey(d).1) && Carries(line, SplitKey(d).1)
    ensures OthersStay(a + [x] + c, d, a + [line] + c)
    ensures OthersStay(a + c, d, a + [line] + c)
    ensures OthersStay(a + [x] + c, d, a + c)
  {
    assert multiset(a + [x] + c) == multiset(a + c) + multiset{x};
    assert multiset(a + [line] + c) == multiset(a + c) + multiset{line};
  }

  lemma {:induction false} InsertPlace(lines: seq<string>, table: string, body: (int, int), at: int)
    requires IsFirstBody(lines, table, body)
    requires body.0 <= at <= body.1 && (at > body.0 ==> Trim(lines[at - 1]) != "")
    ensures EndsWithText(lines[..at])
  {
    if at > 0 {
      assert lines[..at][at - 1] == lines[at - 1];
    }
  }

  lemma {:induction false} SetInserted(lines: seq<string>, d: string, raw: string, body: (int, int), at: int)
    requires WellFormed(lines) && Writable(d, raw) && IsFirstBody(lines, TableOf(d), body)
    requires TableOf(d) != "" ==> Headers(lines, TableOf(d)) == 1
    requires body.0 <= at <= body.1 && (at > body.0 ==> Trim(lines[at - 1]) != "")
    requires forall j :: body.0 <= j < body.1 ==> !Carries(lines[j], SplitKey(d).1)
    ensures IsSet(lines, d, raw, lines[..at] + [SplitKey(d).1 + " = " + raw] + lines[at..])
  {
    var a, c := lines[..at], lines[at..];
    assert lines == a + c;
    InBody(lines, body, at, d);
    SilentLines(lines, body, d);
    InsertPlace(lines, TableOf(d), body, at);
    SetInto(a, c, d, raw);
  }

  lemma {:induction false} SetInto(a: seq<string>, c: seq<string>, d: string, raw: string)
    requires Writable(d, raw) && WellFormed(a + c)
    requires TableAfter(a, "") == TableOf(d) && History(a + c, "", d) == [] && EndsWithText(a)
    requires TableOf(d) != "" ==> Headers(a + c, TableOf(d)) == 1
    ensures IsSet(a + c, d, raw, a + [SplitKey(d).1 + " = " + raw] + c)
  {
    var line := SplitKey(d).1 + " = " + raw;
    WrittenLine(d, raw);
    CarrierValue(line, d);
    SaysInserted(a, line, c, d, raw);
    OthersReplaced(a, line, line, c, d);
    PartsAreWellFormed(a, c, line, line);
    PlacedBehind(a, line, c);
  }

  /** A key that nothing in the only copy of its table carries has no value. */
  lemma {:induction false} SilentLines(lines: seq<string>, body: (int, int), d: string)
    requires WellFormed(lines) && IsFirstBody(lines, TableOf(d), body)
    requires Headers(lines, TableOf(d)) <= 1 || TableOf(d) == ""
    requires forall j :: body.0 <= j < body.1 ==> !Carries(lines[j], SplitKey(d).1)
    ensures History(lines, "", d) == []
  {
    if TableOf(d) == "" {
      NoNameless(lines);
    }
    var head, tail := lines[..body.1], lines[body.1..];
    assert lines[..|lines|] == lines && lines[body.1..|lines|] == tail;
    assert lines == head + tail;
    BehindBody(lines, d, body, |lines|);
    InBody(lines, body, body.1, d);
    HistoryAppend(head, tail, "", d);
  }

  function Block(d: string, raw: string): seq<string> {
    ["[" + TableOf(d) + "]", SplitKey(d).1 + " = " + raw, ""]
  }

  lemma {:induction false} SetAppended(lines: seq<string>, d: string, raw: string, gap: seq<string>)
    requires WellFormed(lines) && Writable(d, raw) && TableOf(d) != "" && Headers(lines, TableOf(d)) == 0
    requires gap == [] || gap == [""]
    ensures IsSet(lines, d, raw, lines + gap + Block(d, raw))
  {
    NeverOpen(lines, "", TableOf(d));
    HeadedBlock(lines, gap, d);
    SetBehind(lines, lines + gap + ["[" + TableOf(d) + "]"], d, raw);
    BlockParts(lines + gap, "[" + TableOf(d) + "]", SplitKey(d).1 + " = " + raw);
  }

  lemma BlockParts(a: seq<string>, head: string, line: string)
    ensures a + [head] + [line] + [""] == a + [head, line, ""]
  {
  }

  lemma {:induction false} SetBehind(lines: seq<string>, a: seq<string>, d: string, raw: string)
    requires Writable(d, raw) && TableOf(d) != ""
    requires Headers(lines, TableOf(d)) == 0 && History(lines, "", d) == []
    requires WellFormed(a + [""]) && TableAfter(a, "") == TableOf(d) && EndsWithText(a)
    requires forall d' :: History(a + [""], "", d') == History(lines, "", d')
    requires forall t :: Headers(a + [""], t) == Headers(lines, t) + if t == TableOf(d) then 1 else 0
    requires OthersStay(lines, d, a + [""])
    ensures IsSet(lines, d, raw, a + [SplitKey(d).1 + " = " + raw] + [""])
  {
    SetInto(a, [""], d, raw);
    SetFromBlock(lines, a + [""], d, raw, a + [SplitKey(d).1 + " = " + raw] + [""]);
  }

  lemma {:induction false} SetFromBlock(before: seq<string>, with: seq<string>, d: string, raw: string,
                                        after: seq<string>)
    requires TableOf(d) != "" && IsSet(with, d, raw, after)
    requires forall d' :: History(with, "", d') == History(before, "", d')
    requires forall t :: t != TableOf(d) ==> Headers(with, t) == Headers(before, t)
    requires OthersStay(before, d, with)
    ensures IsSet(before, d, raw, after)
  {
  }

  /** A new header at the end of a file. */
  lemma {:induction false} HeadedBlock(lines: seq<string>, gap: seq<string>, d: string)
    requires WellFormed(lines) && IsName(TableOf(d)) && TableOf(d) != "" && (gap == [] || gap == [""])
    ensures var a := lines + gap + ["[" + TableOf(d) + "]"];
      && WellFormed(a + [""]) && TableAfter(a, "") == TableOf(d) && EndsWithText(a)
      && (forall d' :: History(a + [""], "", d') == History(lines, "", d'))
      && (forall t :: Headers(a + [""], t) == Headers(lines, t) + if t == TableOf(d) then 1 else 0)
      && OthersStay(lines, d, a + [""])
  {
    var head := "[" + TableOf(d) + "]";
    HeaderLine(TableOf(d));
    BlankGap(lines, gap);
    HeaderAdded(lines + gap, head);
    BlankGap(lines + gap + [head], [""]);
    HeaderEndsWithText(lines + gap, head);
    OnlyBlanksAndHeader(lines, gap, head, d);
  }

  lemma {:induction false} HeaderEndsWithText(lines: seq<string>, head: string)
    requires Header(head).Some?
    ensures EndsWithText(lines + [head])
  {
  }

  lemma {:induction false} OnlyBlanksAndHeader(lines: seq<string>, gap: seq<string>, head: string, d: string)
    requires Header(head) == Some(TableOf(d)) && (gap == [] || gap == [""])
    ensures OthersStay(lines, d, lines + gap + [head] + [""])
  {
    var after := lines + gap + [head] + [""];
    assert multiset(after) == multiset(lines) + multiset(gap) + multiset{head} + multiset{""};
    forall x | Trim(x) != "" && Header(x) != Some(TableOf(d)) ensures multiset(after)[x] == multiset(lines)[x] {
      assert x != head && x != "";
    }
  }

  lemma {:induction false} HeaderAdded(lines: seq<string>, head: string)
    requires WellFormed(lines) && GoodLine(head) && Header(head).Some?
    ensures var a := lines + [head];
      && WellFormed(a) && TableAfter(a, "") == Header(head).value
      && (forall d :: History(a, "", d) == History(lines, "", d))
      && (forall t :: Headers(a, t) == Headers(lines, t) + if Header(head) == Some(t) then 1 else 0)
  {
    HistoryNext(lines, head, "");
    HeadersNext(lines, head);
    WellFormedNext(lines, head);
  }

  lemma {:induction false} BlankGap(lines: seq<string>, gap: seq<string>)
    requires gap == [] || gap == [""]
    ensures TableAfter(lines + gap, "") == TableAfter(lines, "")
    ensures forall d :: History(lines + gap, "", d) == History(lines, "", d)
    ensures forall t :: Headers(lines + gap, t) == Headers(lines, t)
    ensures WellFormed(lines) ==> WellFormed(lines + gap)
  {
    if gap == [] {
      assert lines + gap == lines;
    } else {
      WellFormedNext(lines, "");
      HistoryNext(lines, "", "");
      HeadersNext(lines, "");
    }
  }

  /** Folding first does not change what a set promises. */
  lemma {:induction false} SetAfterFold(before: seq<string>, d: string, raw: string, folded: seq<string>,
                                        after: seq<string>)
    requires WellFormed(before) && TableOf(d) != ""
    requires Folded(before, TableOf(d), folded) && IsSet(folded, d, raw, after)
    ensures IsSet(before, d, raw, after)
  {
    forall x | Trim(x) != "" && Header(x) != Some(TableOf(d)) && !Carries(x, SplitKey(d).1)
      ensures multiset(after)[x] == multiset(before)[x]
    {
      if x !in before {
        assert x !in multiset(folded);
      }
    }
  }

  // ----------------------------------------------------------- set, on the text

  /** appendBlock: an empty line apart from the text before. */
  function AppendBlock(s: string, block: string): string {
    if s == "" then block
    else if s[|s| - 1] == NEWLINE then s + [NEWLINE] + block
    else s + [NEWLINE] + [NEWLINE] + block
  }

  function BlockText(table: string, line: string): string {
    "[" + table + "]" + [NEWLINE] + line + [NEWLINE]
  }

  lemma {:induction false} SplitBlock(d: string, raw: string)
    requires Writable(d, raw) && TableOf(d) != ""
    ensures Split(BlockText(TableOf(d), SplitKey(d).1 + " = " + raw)) == Block(d, raw)
  {
    var head, line := "[" + TableOf(d) + "]", SplitKey(d).1 + " = " + raw;
    HeaderLine(TableOf(d));
    WrittenLine(d, raw);
    assert BlockText(TableOf(d), line) == head + [NEWLINE] + (line + [NEWLINE] + "");
    SplitTwo(head, line + [NEWLINE] + "");
    SplitTwo(line, "");
    SplitOne(head);
    SplitOne(line);
  }

  lemma {:induction false} SplitAppended(s: string, block: string)
    requires s != ""
    ensures Split(AppendBlock(s, block)) == Split(s) + (if s[|s| - 1] == NEWLINE then [] else [""]) + Split(block)
  {
    if s[|s| - 1] == NEWLINE {
      SplitTwo(s, block);
      assert Split(s) + [] == Split(s);
    } else {
      assert AppendBlock(s, block) == s + [NEWLINE] + ("" + [NEWLINE] + block);
      SplitTwo(s, "" + [NEWLINE] + block);
      SplitTwo("", block);
      SumAssociates(Split(s), [""], Split(block));
    }
  }

  lemma {:induction false} SetByAppend(s: string, d: string, raw: string)
    requires WellFormed(Split(s)) && Writable(d, raw) && TableOf(d) != "" && Headers(Split(s), TableOf(d)) == 0
    ensures IsSet(Split(s), d, raw, Split(AppendBlock(s, BlockText(TableOf(d), SplitKey(d).1 + " = " + raw))))
  {
    SplitBlock(d, raw);
    if s == "" {
      SetAppended([], d, raw, []);
      assert [] + [] + Block(d, raw) == Block(d, raw);
      BlankGap([], [""]);
      assert [] + [""] == [""] == Split("");
      SetFromBlock([""], [], d, raw, Block(d, raw));
    } else {
      var gap := if s[|s| - 1] == NEWLINE then [] else [""];
      SplitAppended(s, BlockText(TableOf(d), SplitKey(d).1 + " = " + raw));
      SetAppended(Split(s), d, raw, gap);
    }
  }

  lemma {:induction false} SetByReplace(s: string, d: string, raw: string, body: (int, int), i: int)
    requires WellFormed(Split(s)) && Writable(d, raw) && IsFirstBody(Split(s), TableOf(d), body)
    requires TableOf(d) != "" ==> Headers(Split(s), TableOf(d)) == 1
    requires body.0 <= i < body.1 && Carries(Split(s)[i], SplitKey(d).1)
    requires forall j :: body.0 <= j < i ==> !Carries(Split(s)[j], SplitKey(d).1)
    ensures IsSet(Split(s), d, raw, Split(Join(Split(s)[i := SplitKey(d).1 + " = " + raw])))
  {
    SplitGivesLines(s);
    WrittenLine(d, raw);
    SetReplaced(Split(s), d, raw, body, i);
    SplitJoin(Split(s)[i := SplitKey(d).1 + " = " + raw]);
  }

  lemma {:induction false} PartsAreLines(lines: seq<string>, at: nat, line: string)
    requires AreLines(lines) && at <= |lines| && NEWLINE !in line
    ensures Split(Join(lines[..at] + [line] + lines[at..])) == lines[..at] + [line] + lines[at..]
  {
    SplitJoin(lines[..at] + [line] + lines[at..]);
  }

  lemma {:induction false} SetByInsert(s: string, d: string, raw: string, body: (int, int), at: int)
    requires WellFormed(Split(s)) && Writable(d, raw) && IsFirstBody(Split(s), TableOf(d), body)
    requires TableOf(d) != "" ==> Headers(Split(s), TableOf(d)) == 1
    requires body.0 <= at <= body.1 && (at > body.0 ==> Trim(Split(s)[at - 1]) != "")
    requires forall j :: body.0 <= j < body.1 ==> !Carries(Split(s)[j], SplitKey(d).1)
    ensures IsSet(Split(s), d, raw, Split(Join(Split(s)[..at] + [SplitKey(d).1 + " = " + raw] + Split(s)[at..])))
  {
    var lines, line := Split(s), SplitKey(d).1 + " = " + raw;
    SetInserted(lines, d, raw, body, at);
    assert NEWLINE !in line by {
      WrittenLine(d, raw);
    }
    SplitGivesLines(s);
    PartsAreLines(lines, at, line);
  }

  /** Either the table has one copy, which is its first body, or it has none. */
  lemma {:induction false} OneCopy(lines: seq<string>, table: string, bodies: map<string, (int, int)>)
    requires AreBodies(lines, bodies) && IsName(table) && Headers(lines, table) <= 1
    ensures table in bodies ==> IsFirstBody(lines, table, bodies[table]) && (table != "" ==> Headers(lines, table) == 1)
    ensures table !in bodies ==> table != "" && Headers(lines, table) == 0
  {
    if table in bodies && table != "" {
      var body := bodies[table];
      assert lines == lines[..body.0] + lines[body.0..];
      HeadersAppend(lines[..body.0], lines[body.0..], table);
    }
  }

  /** The folded text in which the set happens. */
  ghost predicate Prepared(before: seq<string>, d: string, lines: seq<string>) {
    && WellFormed(lines) && Headers(lines, TableOf(d)) <= 1
    && (if TableOf(d) == "" then lines == before else Folded(before, TableOf(d), lines))
  }

  lemma {:induction false} SetPrepared(before: seq<string>, d: string, raw: string, lines: seq<string>, after: seq<string>)
    requires WellFormed(before) && Prepared(before, d, lines) && IsSet(lines, d, raw, after)
    ensures IsSet(before, d, raw, after)
  {
    if TableOf(d) != "" {
      SetAfterFold(before, d, raw, lines, after);
    }
  }

  /** What SetFolded is asked for, and what it gives then. */
  ghost predicate CanSet(s: string, d: string, raw: string) {
    WellFormed(Split(s)) && Writable(d, raw) && Headers(Split(s), TableOf(d)) <= 1
  }

  ghost predicate SetsText(s: string, d: string, raw: string, r: string) {
    CanSet(s, d, raw) ==> IsSet(Split(s), d, raw, Split(r))
  }

  lemma {:induction false} SetsByAppend(s: string, d: string, raw: string, bodies: map<string, (int, int)>)
    requires AreBodies(Split(s), bodies) && TableOf(d) !in bodies
    ensures SetsText(s, d, raw, AppendBlock(s, BlockText(TableOf(d), SplitKey(d).1 + " = " + raw)))
  {
    if CanSet(s, d, raw) {
      OneCopy(Split(s), TableOf(d), bodies);
      SetByAppend(s, d, raw);
    }
  }

  lemma {:induction false} SetsByReplace(s: string, d: string, raw: string, bodies: map<string, (int, int)>, i: int)
    requires AreBodies(Split(s), bodies) && TableOf(d) in bodies
    requires var body := bodies[TableOf(d)];
      && body.0 <= i < body.1 && Carries(Split(s)[i], SplitKey(d).1)
      && forall j :: body.0 <= j < i ==> !Carries(Split(s)[j], SplitKey(d).1)
    ensures SetsText(s, d, raw, Join(Split(s)[i := SplitKey(d).1 + " = " + raw]))
  {
    if CanSet(s, d, raw) {
      OneCopy(Split(s), TableOf(d), bodies);
      SetByReplace(s, d, raw, bodies[TableOf(d)], i);
    }
  }

  lemma {:induction false} SetsByInsert(s: string, d: string, raw: string, bodies: map<string, (int, int)>, at: int)
    requires AreBodies(Split(s), bodies) && TableOf(d) in bodies
    requires var body := bodies[TableOf(d)];
      && body.0 <= at <= body.1 && (at > body.0 ==> Trim(Split(s)[at - 1]) != "")
      && forall j :: body.0 <= j < body.1 ==> !Carries(Split(s)[j], SplitKey(d).1)
    ensures SetsText(s, d, raw, Join(Split(s)[..at] + [SplitKey(d).1 + " = " + raw] + Split(s)[at..]))
  {
    if CanSet(s, d, raw) {
      OneCopy(Split(s), TableOf(d), bodies);
      SetByInsert(s, d, raw, bodies[TableOf(d)], at);
    }
  }

  /** The part of setTOMLRaw behind the fold. */
  method SetFolded(s: string, dotted: string, raw: string) returns (r: string)
    ensures SetsText(s, dotted, raw, r)
  {
    var (table, key) := SplitKey(dotted);
    var lines, bodies := ParseLines(s);
    var line := key + " = " + raw;
    if table !in bodies {
      SetsByAppend(s, dotted, raw, bodies);
      return AppendBlock(s, BlockText(table, line));
    }
    var body := bodies[table];
    for i := body.0 to body.1
      invariant forall j :: body.0 <= j < i ==> !Carries(lines[j], key)
    {
      if Carries(lines[i], key) {
        SetsByReplace(s, dotted, raw, bodies, i);
        return Join(lines[i := line]);
      }
    }
    var at := body.1;
    while at > body.0 && Trim(lines[at - 1]) == ""
      invariant body.0 <= at <= body.1
    {
      at := at - 1;
    }
    SetsByInsert(s, dotted, raw, bodies, at);
    return Join(lines[..at] + [line] + lines[at..]);
  }

  /** setTOMLRaw. */
  method SetRaw(s: string, dotted: string, raw: string) returns (r: string)
    ensures WellFormed(Split(s)) && Writable(dotted, raw) ==> IsSet(Split(s), dotted, raw, Split(r))
  {
    var (table, key) := SplitKey(dotted);
    var folded := s;
    if table != "" {
      folded := FoldTable(s, table);
    }
    r := SetFolded(folded, dotted, raw);
    if WellFormed(Split(s)) && Writable(dotted, raw) {
      NoNameless(Split(s));
      SetPrepared(Split(s), dotted, raw, Split(folded), Split(r));
    }
  }
}
