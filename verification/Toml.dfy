/** The line-level TOML editor of home.go. The meaning of a file is what tomlValues
    reads from it: the last value of each key. To say what an edit does with
    repeated keys, the model keeps the whole history of a key: its values in
    the order of the file. */
module Toml {
  import opened Collections
  import opened TomlText

  // -------------------------------------------------------------------- lines

  predicate StartsWith(s: string, c: char) {
    s != "" && s[0] == c
  }

  /** A trimmed line that opens an array of tables. */
  predicate IsArray(trim: string) {
    |trim| >= 2 && trim[0] == '[' && trim[1] == '['
  }

  /** tomlHeader, on a trimmed line. */
  predicate IsHeader(trim: string) {
    StartsWith(trim, '[') && !IsArray(trim) && trim[|trim| - 1] == ']'
  }

  function HeaderName(trim: string): string
    requires IsHeader(trim)
  {
    Trim(trim[1..|trim| - 1])
  }

  /** The header that a line is, if it is one. */
  function Header(line: string): Option<string> {
    if IsHeader(Trim(line)) then Some(HeaderName(Trim(line))) else None
  }

  /** Key and value of a line, trimmed, where it has an equals sign at all. */
  function KeyValue(line: string): Option<(string, string)> {
    match Cut(Trim(line))
    case None => None
    case Some((k, v)) => Some((Trim(k), Trim(v)))
  }

  /** What tomlValues reads from a line: nothing from a blank line, a comment and
      a header. */
  function Entry(line: string): Option<(string, string)> {
    if Trim(line) == "" || StartsWith(Trim(line), '#') || Header(line).Some? then None else KeyValue(line)
  }

  function Dotted(table: string, key: string): string {
    if table == "" then key else table + "." + key
  }

  // -------------------------------------------------------------------- meaning

  /** The table that is open after the lines, when `table` was before. */
  function TableAfter(lines: seq<string>, table: string): string {
    if lines == [] then table
    else
      match Header(lines[|lines| - 1])
      case Some(h) => h
      case None => TableAfter(lines[..|lines| - 1], table)
  }

  /** The value that a line in a table gives to the dotted key d, if any. */
  function ValueOf(line: string, table: string, d: string): seq<string> {
    match Entry(line)
    case None => []
    case Some((k, v)) => if Dotted(table, k) == d then [v] else []
  }

  /** The values that the lines give to d, in order. */
  function History(lines: seq<string>, table: string, d: string): seq<string> {
    if lines == [] then []
    else
      var before := lines[..|lines| - 1];
      History(before, table, d) + ValueOf(lines[|lines| - 1], TableAfter(before, table), d)
  }

  lemma {:induction false} TableAfterAppend(a: seq<string>, b: seq<string>, table: string)
    ensures TableAfter(a + b, table) == TableAfter(b, TableAfter(a, table))
  {
    if b == [] {
      assert a + b == a;
    } else {
      assert (a + b)[..|a + b| - 1] == a + b[..|b| - 1];
      TableAfterAppend(a, b[..|b| - 1], table);
    }
  }

  lemma {:induction false} HistoryAppend(a: seq<string>, b: seq<string>, table: string, d: string)
    ensures History(a + b, table, d) == History(a, table, d) + History(b, TableAfter(a, table), d)
  {
    if b == [] {
      assert a + b == a;
    } else {
      var b' := b[..|b| - 1];
      assert (a + b)[..|a + b| - 1] == a + b';
      HistoryAppend(a, b', table, d);
      TableAfterAppend(a, b', table);
    }
  }

  lemma {:induction false} HistoryNext(lines: seq<string>, line: string, table: string)
    ensures forall d :: History(lines + [line], table, d) == History(lines, table, d) + ValueOf(line, TableAfter(lines, table), d)
    ensures TableAfter(lines + [line], table) == if Header(line).Some? then Header(line).value else TableAfter(lines, table)
  {
    assert (lines + [line])[..|lines|] == lines;
  }

  /** The map that the lines mean: every key with its last value. */
  ghost predicate Means(lines: seq<string>, values: map<string, string>) {
    forall d :: if History(lines, "", d) == [] then d !in values
                else d in values && values[d] == History(lines, "", d)[|History(lines, "", d)| - 1]
  }

  lemma {:induction false} MeaningIsUnique(lines: seq<string>, a: map<string, string>, b: map<string, string>)
    requires Means(lines, a) && Means(lines, b)
    ensures a == b
  {
    forall d ensures d in a <==> d in b {
      assert History(lines, "", d) == [] ==> d !in a && d !in b;
    }
  }

  lemma {:induction false} MeansNext(lines: seq<string>, line: string, values: map<string, string>)
    requires Means(lines, values)
    ensures Means(lines + [line],
                  if Entry(line) == None then values
                  else values[Dotted(TableAfter(lines, ""), Entry(line).value.0) := Entry(line).value.1])
  {
    HistoryNext(lines, line, "");
  }

  method TomlValues(s: string) returns (out: map<string, string>)
    ensures Means(Split(s), out)
  {
    out := map[];
    var table := "";
    var lines := Split(s);
    for i := 0 to |lines|
      invariant table == TableAfter(lines[..i], "")
      invariant Means(lines[..i], out)
    {
      var line := lines[i];
      assert lines[..i + 1] == lines[..i] + [line];
      MeansNext(lines[..i], line, out);
      HistoryNext(lines[..i], line, "");
      var trim := Trim(line);
      if trim == "" || StartsWith(trim, '#') {
        continue;
      }
      if IsHeader(trim) {
        table := HeaderName(trim);
        continue;
      }
      var cut := Cut(trim);
      if cut == None {
        continue;
      }
      var key := Trim(cut.value.0);
      if table != "" {
        key := table + "." + key;
      }
      out := out[key := Trim(cut.value.1)];
    }
    assert lines[..|lines|] == lines;
  }

  // ------------------------------------------------------------------ what a line is

  /** A table header, with spaces wherever they may stand. */
  lemma {:induction false} HeaderLines(a: string, b: string, name: string, c: string, e: string)
    requires AllSpace(a) && AllSpace(b) && AllSpace(c) && AllSpace(e) && Trimmed(name)
    requires !StartsWith(b + name + c, '[')
    ensures Header(a + ("[" + (b + name + c) + "]") + e) == Some(name)
  {
    var inside := b + name + c;
    var trim := "[" + inside + "]";
    assert trim[0] == '[' && trim[|trim| - 1] == ']' && trim[1..|trim| - 1] == inside;
    assert inside != "" ==> trim[1] == inside[0];
    TrimFinds(a, trim, e);
    TrimFinds(b, name, c);
  }

  /** A line with a key and a value, with spaces wherever they may stand. */
  lemma {:induction false} EntryLines(a: string, key: string, b: string, c: string, value: string, e: string)
    requires AllSpace(a) && AllSpace(b) && AllSpace(c) && AllSpace(e) && Trimmed(key) && Trimmed(value)
    requires key != "" && '=' !in key && key[0] != '#' && key[0] != '[' && value != ""
    ensures Entry(a + (key + b + "=" + (c + value)) + e) == Some((key, value))
  {
    var trim := key + b + "=" + (c + value);
    assert trim[0] == key[0] && trim[|trim| - 1] == value[|value| - 1];
    TrimFinds(a, trim, e);
    assert '=' !in key + b by {
      assert forall i :: 0 <= i < |b| ==> IsSpace(b[i]);
    }
    CutAt(key + b, c + value);
    assert "" + key + b == key + b && c + value + "" == c + value;
    TrimFinds("", key, b);
    TrimFinds(c, value, "");
  }

  /** A comment, a blank line and a line without an equals sign say nothing. */
  lemma {:induction false} SilentLines(a: string, text: string, e: string)
    requires AllSpace(a) && AllSpace(e) && Trimmed(text)
    requires text == "" || text[0] == '#' || '=' !in text
    ensures Entry(a + text + e) == None
  {
    TrimFinds(a, text, e);
    CutFacts(text);
  }
}
