/** foldTOMLTable of home.go: the bodies of repeated [table] headers move into the
    first one. */
module TomlFold {
  import opened Collections
  import opened TomlText
  import opened Toml

  // --------------------------------------------------------------- well-formed

  /** splitTOMLKey: table and key are what the last dot divides. */
  function SplitKey(d: string): (string, string) {
    if d == "" then ("", "")
    else
      var n := |d| - 1;
      if d[n] == '.' then (d[..n], "")
      else
        var (table, key) := SplitKey(d[..n]);
        (table, key + [d[n]])
  }

  lemma {:induction false} SplitKeyFacts(d: string)
    ensures '.' !in SplitKey(d).1
    ensures d == SplitKey(d).1 || d == SplitKey(d).0 + "." + SplitKey(d).1
  {
    if d != "" {
      var n := |d| - 1;
      assert d == d[..n] + [d[n]];
      if d[n] != '.' {
        SplitKeyFacts(d[..n]);
        var (table, key) := SplitKey(d[..n]);
        assert table + "." + key + [d[n]] == table + "." + (key + [d[n]]);
      } else {
        assert d[..n] + "." + "" == d;
      }
    }
  }

  lemma {:induction false} SplitDotted(table: string, key: string)
    requires '.' !in key
    ensures SplitKey(Dotted(table, key)) == (table, key)
  {
    var d := Dotted(table, key);
    if key == "" {
      if table != "" {
        assert d[..|d| - 1] == table;
      }
    } else {
      var n := |key| - 1;
      assert key[n] in key;
      SplitDotted(table, key[..n]);
      assert d[..|d| - 1] == Dotted(table, key[..n]);
      assert key[..n] + [key[n]] == key;
    }
  }

  function TableOf(d: string): string {
    SplitKey(d).0
  }

  /** No arrays of tables, no empty table name, and keys without dots. */
  predicate GoodLine(line: string) {
    && !IsArray(Trim(line))
    && Header(line) != Some("")
    && (Entry(line).Some? ==> '.' !in Entry(line).value.0)
  }

  ghost predicate WellFormed(lines: seq<string>) {
    forall i :: 0 <= i < |lines| ==> GoodLine(lines[i])
  }

  /** In a well-formed file a dotted key gets its values in its own table only. */
  lemma {:induction false} ValueInOwnTable(line: string, table: string, d: string)
    requires GoodLine(line) && ValueOf(line, table, d) != []
    ensures table == TableOf(d)
  {
    SplitDotted(table, Entry(line).value.0);
  }

  /** The number of headers of a table. */
  function Headers(lines: seq<string>, table: string): nat {
    if lines == [] then 0
    else Headers(lines[..|lines| - 1], table) + if Header(lines[|lines| - 1]) == Some(table) then 1 else 0
  }

  lemma {:induction false} HeadersAppend(a: seq<string>, b: seq<string>, table: string)
    ensures Headers(a + b, table) == Headers(a, table) + Headers(b, table)
  {
    if b == [] {
      assert a + b == a;
    } else {
      assert (a + b)[..|a + b| - 1] == a + b[..|b| - 1];
      HeadersAppend(a, b[..|b| - 1], table);
    }
  }

  lemma {:induction false} HeadersNext(lines: seq<string>, line: string)
    ensures forall t :: Headers(lines + [line], t) == Headers(lines, t) + if Header(line) == Some(t) then 1 else 0
  {
    assert (lines + [line])[..|lines|] == lines;
  }

  // ------------------------------------------------------------- the loop state

  /** Of the headers of `table` the loop keeps the first one, and of every other
      header all. */
  ghost predicate HeadersKept(seen: seq<string>, table: string, out: seq<string>, moved: seq<string>, n: nat) {
    && n == Headers(seen, table)
    && (forall t :: Headers(moved, t) == 0)
    && (forall t :: t != table ==> Headers(out, t) == Headers(seen, t))
    && Headers(out, table) == (if n == 0 then 0 else 1)
  }

  /** It keeps every line that is not blank and not a header of `table`. */
  ghost predicate LinesKept(seen: seq<string>, table: string, kept: multiset<string>) {
    && (forall x :: x in kept ==> x in seen)
    && (forall x :: x in seen && Trim(x) != "" && Header(x) != Some(table) ==> kept[x] == multiset(seen)[x])
  }

  lemma {:induction false} HeadersKeptPlain(seen: seq<string>, table: string, out: seq<string>, moved: seq<string>,
                                            n: nat, x: string)
    requires HeadersKept(seen, table, out, moved, n) && Header(x) == None
    ensures HeadersKept(seen + [x], table, out + [x], moved, n)
    ensures HeadersKept(seen + [x], table, out, moved + [x], n)
    ensures HeadersKept(seen + [x], table, out, moved, n)
  {
    HeadersNext(seen, x);
    HeadersNext(out, x);
    HeadersNext(moved, x);
  }

  lemma {:induction false} HeadersKeptOther(seen: seq<string>, table: string, out: seq<string>, moved: seq<string>,
                                            n: nat, x: string)
    requires HeadersKept(seen, table, out, moved, n) && Header(x) != Some(table)
    ensures HeadersKept(seen + [x], table, out + [x], moved, n)
  {
    HeadersNext(seen, x);
    HeadersNext(out, x);
  }

  lemma {:induction false} HeadersKeptOwn(seen: seq<string>, table: string, out: seq<string>, moved: seq<string>,
                                          n: nat, x: string)
    requires HeadersKept(seen, table, out, moved, n) && Header(x) == Some(table)
    ensures HeadersKept(seen + [x], table, if n == 0 then out + [x] else out, moved, n + 1)
  {
    HeadersNext(seen, x);
    HeadersNext(out, x);
  }

  lemma {:induction false} LinesKeptByLine(seen: seq<string>, table: string, kept: multiset<string>, x: string)
    requires LinesKept(seen, table, kept)
    ensures LinesKept(seen + [x], table, kept + multiset{x})
    ensures Trim(x) == "" || Header(x) == Some(table) ==> LinesKept(seen + [x], table, kept)
  {
    assert forall y :: y in seen + [x] <==> y in seen || y == x;
    forall y | y !in seen ensures multiset(seen)[y] == 0 {}
  }

  // ------------------------------------------------------ the loop and the meaning

  /** The lines give no value to the keys of `table`. */
  ghost predicate Silent(lines: seq<string>, open: string, table: string) {
    forall d :: TableOf(d) == table ==> History(lines, open, d) == []
  }

  /** Together the kept and the moved lines say what the lines so far say. */
  ghost predicate SameHistory(seen: seq<string>, table: string, out: seq<string>, moved: seq<string>) {
    && (forall d :: TableOf(d) != table ==> History(out, "", d) == History(seen, "", d))
    && (forall d :: TableOf(d) == table ==> History(out, "", d) + History(moved, table, d) == History(seen, "", d))
  }

  /** Where the moved lines will go: in the first copy, after all its values. */
  ghost predicate GoodPlace(out: seq<string>, table: string, first: int) {
    && 1 <= first <= |out|
    && TableAfter(out[..first], "") == table
    && Silent(out[first..], table, table)
  }

  ghost predicate NoHeaders(lines: seq<string>) {
    forall i :: 0 <= i < |lines| ==> Header(lines[i]) == None
  }

  ghost predicate Meaning(seen: seq<string>, table: string, out: seq<string>, moved: seq<string>,
                          first: int, n: nat, inside: bool) {
    && (inside <==> TableAfter(seen, "") == table)
    && (inside ==> n >= 1)
    && (!(inside && n > 1) ==> TableAfter(out, "") == TableAfter(seen, ""))
    && SameHistory(seen, table, out, moved)
    && (n < 2 ==> moved == [])
    && (n >= 1 ==> GoodPlace(out, table, first))
    && NoHeaders(moved)
  }

  lemma {:induction false} PlainTable(lines: seq<string>, table: string)
    requires NoHeaders(lines)
    ensures TableAfter(lines, table) == table
  {
    if lines != [] {
      PlainTable(lines[..|lines| - 1], table);
    }
  }

  /** A line that is not moved, and comes after the first copy is complete. */
  lemma {:induction false} PlaceStays(out: seq<string>, table: string, first: int, x: string)
    requires GoodPlace(out, table, first) && GoodLine(x)
    requires TableAfter(out, "") != table || Trim(x) == "" || Header(x).Some?
    ensures GoodPlace(out + [x], table, first)
  {
    var head, tail := out[..first], out[first..];
    assert out == head + tail;
    assert (out + [x])[..first] == head && (out + [x])[first..] == tail + [x];
    TableAfterAppend(head, tail, "");
    HistoryNext(tail, x, table);
    forall d | TableOf(d) == table && ValueOf(x, TableAfter(tail, table), d) != [] ensures false {
      ValueInOwnTable(x, TableAfter(tail, table), d);
    }
  }

  lemma {:induction false} PlaceMoves(out: seq<string>, table: string, x: string)
    requires TableAfter(out + [x], "") == table
    ensures GoodPlace(out + [x], table, |out| + 1)
  {
    assert (out + [x])[..|out| + 1] == out + [x];
  }

  lemma {:induction false} SameByQuiet(seen: seq<string>, table: string, out: seq<string>, moved: seq<string>, x: string)
    requires SameHistory(seen, table, out, moved) && Entry(x) == None
    ensures SameHistory(seen + [x], table, out, moved)
    ensures SameHistory(seen + [x], table, out + [x], moved)
  {
    HistoryNext(seen, x, "");
    HistoryNext(out, x, "");
  }

  lemma {:induction false} SameByKept(seen: seq<string>, table: string, out: seq<string>, moved: seq<string>, x: string)
    requires SameHistory(seen, table, out, moved) && GoodLine(x)
    requires TableAfter(out, "") == TableAfter(seen, "")
    requires TableAfter(seen, "") == table ==> moved == []
    ensures SameHistory(seen + [x], table, out + [x], moved)
  {
    HistoryNext(seen, x, "");
    HistoryNext(out, x, "");
    forall d | ValueOf(x, TableAfter(seen, ""), d) != [] ensures TableOf(d) == TableAfter(seen, "") {
      ValueInOwnTable(x, TableAfter(seen, ""), d);
    }
  }

  lemma {:induction false} SameByMoved(seen: seq<string>, table: string, out: seq<string>, moved: seq<string>, x: string)
    requires SameHistory(seen, table, out, moved) && GoodLine(x)
    requires TableAfter(seen, "") == table && NoHeaders(moved)
    ensures SameHistory(seen + [x], table, out, moved + [x])
  {
    HistoryNext(seen, x, "");
    HistoryNext(moved, x, table);
    PlainTable(moved, table);
    forall d | ValueOf(x, table, d) != [] ensures TableOf(d) == table {
      ValueInOwnTable(x, table, d);
    }
    forall d | TableOf(d) == table
      ensures History(out, "", d) + History(moved + [x], table, d) == History(seen + [x], "", d)
    {
      SumAssociates(History(out, "", d), History(moved, table, d), ValueOf(x, table, d));
    }
  }

  lemma {:induction false} MeaningByOtherHeader(seen: seq<string>, table: string, out: seq<string>,
                                                moved: seq<string>, first: int, n: nat, inside: bool, x: string)
    requires Meaning(seen, table, out, moved, first, n, inside) && GoodLine(x)
    requires Header(x).Some? && Header(x).value != table
    ensures Meaning(seen + [x], table, out + [x], moved, first, n, false)
  {
    HistoryNext(seen, x, "");
    HistoryNext(out, x, "");
    SameByQuiet(seen, table, out, moved, x);
    if n > 0 {
      PlaceStays(out, table, first, x);
    }
  }

  lemma {:induction false} MeaningByOwnHeader(seen: seq<string>, table: string, out: seq<string>,
                                              moved: seq<string>, first: int, n: nat, inside: bool, x: string)
    requires Meaning(seen, table, out, moved, first, n, inside) && Header(x) == Some(table)
    ensures n == 0 ==> Meaning(seen + [x], table, out + [x], moved, |out| + 1, 1, true)
    ensures n > 0 ==> Meaning(seen + [x], table, out, moved, first, n + 1, true)
  {
    HistoryNext(seen, x, "");
    HistoryNext(out, x, "");
    SameByQuiet(seen, table, out, moved, x);
    PlaceMoves(out, table, x);
  }

  /** A line of a repeated copy: moved unless blank. */
  lemma {:induction false} MeaningByRepeated(seen: seq<string>, table: string, out: seq<string>,
                                             moved: seq<string>, first: int, n: nat, x: string)
    requires Meaning(seen, table, out, moved, first, n, true) && GoodLine(x) && Header(x) == None && n > 1
    ensures Meaning(seen + [x], table, out, moved + [x], first, n, true)
    ensures Trim(x) == "" ==> Meaning(seen + [x], table, out, moved, first, n, true)
  {
    HistoryNext(seen, x, "");
    SameByMoved(seen, table, out, moved, x);
    if Trim(x) == "" {
      SameByQuiet(seen, table, out, moved, x);
    }
  }

  /** Any other line: kept. */
  lemma {:induction false} MeaningByLine(seen: seq<string>, table: string, out: seq<string>,
                                         moved: seq<string>, first: int, n: nat, inside: bool, x: string)
    requires Meaning(seen, table, out, moved, first, n, inside) && GoodLine(x) && Header(x) == None
    requires !(inside && n > 1)
    ensures Meaning(seen + [x], table, out + [x], moved,
                    if inside && Trim(x) != "" then |out| + 1 else first, n, inside)
  {
    HistoryNext(seen, x, "");
    HistoryNext(out, x, "");
    SameByKept(seen, table, out, moved, x);
    if inside && Trim(x) != "" {
      PlaceMoves(out, table, x);
    } else if n >= 1 {
      PlaceStays(out, table, first, x);
    }
  }

  lemma {:induction false} HistoryOfThree(head: seq<string>, moved: seq<string>, tail: seq<string>,
                                          table: string, d: string)
    requires TableAfter(head, "") == table && NoHeaders(moved)
    ensures History(head + moved + tail, "", d) ==
      History(head, "", d) + History(moved, table, d) + History(tail, table, d)
    ensures History(head + tail, "", d) == History(head, "", d) + History(tail, table, d)
  {
    HistoryAppend(head + moved, tail, "", d);
    HistoryAppend(head, moved, "", d);
    HistoryAppend(head, tail, "", d);
    TableAfterAppend(head, moved, "");
    PlainTable(moved, table);
  }

  /** Moving the lines to their place keeps what the file says. */
  lemma {:induction false} FoldedHistory(seen: seq<string>, table: string, out: seq<string>, moved: seq<string>,
                                         first: int, d: string)
    requires SameHistory(seen, table, out, moved) && GoodPlace(out, table, first)
    requires NoHeaders(moved) && WellFormed(moved)
    ensures History(out[..first] + moved + out[first..], "", d) == History(seen, "", d)
  {
    var head, tail := out[..first], out[first..];
    assert out == head + tail;
    HistoryOfThree(head, moved, tail, table, d);
    var a, b, c := History(head, "", d), History(moved, table, d), History(tail, table, d);
    if TableOf(d) == table {
      assert c == [];
      assert a + [] == a && a + b + [] == a + b;
    } else {
      OtherTableSilent(moved, table, d);
      assert a + [] == a;
    }
  }

  lemma {:induction false} OtherTableSilent(lines: seq<string>, table: string, d: string)
    requires NoHeaders(lines) && WellFormed(lines) && TableOf(d) != table
    ensures History(lines, table, d) == []
  {
    if lines != [] {
      var before, x := lines[..|lines| - 1], lines[|lines| - 1];
      OtherTableSilent(before, table, d);
      PlainTable(before, table);
      if ValueOf(x, table, d) != [] {
        ValueInOwnTable(x, table, d);
      }
    }
  }

  // ------------------------------------------------------------------ the method

  /** The invariant of the loop, after it has seen some lines. */
  ghost predicate Loop(seen: seq<string>, table: string, out: seq<string>, moved: seq<string>,
                       first: int, n: nat, inside: bool) {
    && HeadersKept(seen, table, out, moved, n)
    && LinesKept(seen, table, multiset(out) + multiset(moved))
    && (n >= 1 ==> 1 <= first <= |out|)
    && (inside ==> n >= 1)
    && (table != "" && WellFormed(seen) ==> Meaning(seen, table, out, moved, first, n, inside))
  }

  lemma {:induction false} WellFormedNext(seen: seq<string>, x: string)
    ensures WellFormed(seen + [x]) <==> WellFormed(seen) && GoodLine(x)
  {
    if WellFormed(seen + [x]) {
      assert (seen + [x])[|seen|] == x;
      forall i | 0 <= i < |seen| ensures GoodLine(seen[i]) {
        assert (seen + [x])[i] == seen[i];
      }
    }
  }

  lemma {:induction false} LoopByOwnHeader(seen: seq<string>, table: string, out: seq<string>, moved: seq<string>,
                                           first: int, n: nat, inside: bool, x: string)
    requires Loop(seen, table, out, moved, first, n, inside) && Header(x) == Some(table)
    ensures if n == 0 then Loop(seen + [x], table, out + [x], moved, |out| + 1, 1, true)
            else Loop(seen + [x], table, out, moved, first, n + 1, true)
  {
    WellFormedNext(seen, x);
    HeadersKeptOwn(seen, table, out, moved, n, x);
    LinesKeptByLine(seen, table, multiset(out) + multiset(moved), x);
    assert multiset(out + [x]) + multiset(moved) == multiset(out) + multiset(moved) + multiset{x};
    if table != "" && WellFormed(seen + [x]) {
      MeaningByOwnHeader(seen, table, out, moved, first, n, inside, x);
    }
  }

  /** Another header, or an array of tables. */
  lemma {:induction false} LoopByOtherHeader(seen: seq<string>, table: string, out: seq<string>, moved: seq<string>,
                                             first: int, n: nat, inside: bool, x: string)
    requires Loop(seen, table, out, moved, first, n, inside)
    requires Header(x) != Some(table) && (Header(x).Some? || IsArray(Trim(x)))
    ensures Loop(seen + [x], table, out + [x], moved, first, n, false)
  {
    WellFormedNext(seen, x);
    HeadersKeptOther(seen, table, out, moved, n, x);
    LinesKeptByLine(seen, table, multiset(out) + multiset(moved), x);
    assert multiset(out + [x]) + multiset(moved) == multiset(out) + multiset(moved) + multiset{x};
    if table != "" && WellFormed(seen + [x]) {
      MeaningByOtherHeader(seen, table, out, moved, first, n, inside, x);
    }
  }

  lemma {:induction false} LoopByRepeated(seen: seq<string>, table: string, out: seq<string>, moved: seq<string>,
                                          first: int, n: nat, x: string)
    requires Loop(seen, table, out, moved, first, n, true) && Header(x) == None && n > 1
    ensures if Trim(x) == "" then Loop(seen + [x], table, out, moved, first, n, true)
            else Loop(seen + [x], table, out, moved + [x], first, n, true)
  {
    WellFormedNext(seen, x);
    HeadersKeptPlain(seen, table, out, moved, n, x);
    LinesKeptByLine(seen, table, multiset(out) + multiset(moved), x);
    assert multiset(out) + multiset(moved + [x]) == multiset(out) + multiset(moved) + multiset{x};
    if table != "" && WellFormed(seen + [x]) {
      MeaningByRepeated(seen, table, out, moved, first, n, x);
    }
  }

  lemma {:induction false} LoopByLine(seen: seq<string>, table: string, out: seq<string>, moved: seq<string>,
                                      first: int, n: nat, inside: bool, x: string)
    requires Loop(seen, table, out, moved, first, n, inside) && Header(x) == None && !(inside && n > 1)
    ensures Loop(seen + [x], table, out + [x], moved,
                 if inside && Trim(x) != "" then |out| + 1 else first, n, inside)
  {
    WellFormedNext(seen, x);
    HeadersKeptPlain(seen, table, out, moved, n, x);
    LinesKeptByLine(seen, table, multiset(out) + multiset(moved), x);
    assert multiset(out + [x]) + multiset(moved) == multiset(out) + multiset(moved) + multiset{x};
    if table != "" && WellFormed(seen + [x]) {
      MeaningByLine(seen, table, out, moved, first, n, inside, x);
    }
  }

  /** What a fold promises about the lines before and after. On any file it leaves
      at most one header of the table, keeps every other header, and keeps every
      line that is neither blank nor a header of the table. On a well-formed
      file it keeps the history of every key, and with it the meaning of the
      file, repeated keys included. */
  ghost predicate Folded(before: seq<string>, table: string, after: seq<string>) {
    && Headers(after, table) == (if Headers(before, table) == 0 then 0 else 1)
    && (forall t :: t != table ==> Headers(after, t) == Headers(before, t))
    && LinesKept(before, table, multiset(after))
    && (table != "" && WellFormed(before) ==>
          WellFormed(after) && forall d :: History(after, "", d) == History(before, "", d))
  }

  lemma {:induction false} FoldedByLoop(seen: seq<string>, table: string, out: seq<string>, moved: seq<string>,
                                        first: int, n: nat, inside: bool)
    requires Loop(seen, table, out, moved, first, n, inside) && n >= 2
    ensures Folded(seen, table, out[..first] + moved + out[first..])
  {
    var head, tail := out[..first], out[first..];
    var after := head + moved + tail;
    assert out == head + tail;
    forall t ensures Headers(after, t) == Headers(out, t) + Headers(moved, t) {
      HeadersAppend(head + moved, tail, t);
      HeadersAppend(head, moved, t);
      HeadersAppend(head, tail, t);
    }
    assert multiset(after) == multiset(out) + multiset(moved);
    if table != "" && WellFormed(seen) {
      KeptIsWellFormed(seen, table, after);
      KeptIsWellFormed(seen, table, moved);
      forall d ensures History(after, "", d) == History(seen, "", d) {
        FoldedHistory(seen, table, out, moved, first, d);
      }
    }
  }

  lemma {:induction false} KeptIsWellFormed(seen: seq<string>, table: string, kept: seq<string>)
    requires WellFormed(seen) && forall x :: x in kept ==> x in seen
    ensures WellFormed(kept)
  {
    forall i | 0 <= i < |kept| ensures GoodLine(kept[i]) {
      assert kept[i] in seen;
    }
  }

  lemma {:induction false} NothingToFold(lines: seq<string>, table: string)
    requires Headers(lines, table) < 2
    ensures Folded(lines, table, lines)
  {
  }

  /** The variables of the loop. */
  datatype Fold = Fold(out: seq<string>, moved: seq<string>, first: int, n: nat, inside: bool)

  /** What the loop does with a line. */
  function FoldLine(f: Fold, table: string, line: string): Fold {
    var trim := Trim(line);
    var opens := IsHeader(trim) || IsArray(trim);
    var inside := if opens then IsHeader(trim) && HeaderName(trim) == table else f.inside;
    var n := if opens && inside then f.n + 1 else f.n;
    if inside && n > 1 then
      f.(moved := if opens || trim == "" then f.moved else f.moved + [line], n := n, inside := true)
    else
      Fold(f.out + [line], f.moved, if inside && trim != "" then |f.out| + 1 else f.first, n, inside)
  }

  ghost predicate LoopHolds(seen: seq<string>, table: string, f: Fold) {
    Loop(seen, table, f.out, f.moved, f.first, f.n, f.inside)
  }

  lemma {:induction false} LoopByFoldOwn(seen: seq<string>, table: string, f: Fold, x: string)
    requires LoopHolds(seen, table, f) && Header(x) == Some(table)
    ensures LoopHolds(seen + [x], table, FoldLine(f, table, x))
  {
    LoopByOwnHeader(seen, table, f.out, f.moved, f.first, f.n, f.inside, x);
    assert f.n == 0 ==> FoldLine(f, table, x) == Fold(f.out + [x], f.moved, |f.out| + 1, 1, true);
  }

  lemma {:induction false} LoopByFoldOther(seen: seq<string>, table: string, f: Fold, x: string)
    requires LoopHolds(seen, table, f)
    requires Header(x) != Some(table) && (Header(x).Some? || IsArray(Trim(x)))
    ensures LoopHolds(seen + [x], table, FoldLine(f, table, x))
  {
    LoopByOtherHeader(seen, table, f.out, f.moved, f.first, f.n, f.inside, x);
    assert FoldLine(f, table, x) == f.(out := f.out + [x], inside := false);
  }

  lemma {:induction false} LoopByFoldPlain(seen: seq<string>, table: string, f: Fold, x: string)
    requires LoopHolds(seen, table, f) && Header(x) == None && !IsArray(Trim(x))
    ensures LoopHolds(seen + [x], table, FoldLine(f, table, x))
  {
    if f.inside && f.n > 1 {
      LoopByRepeated(seen, table, f.out, f.moved, f.first, f.n, x);
    } else {
      LoopByLine(seen, table, f.out, f.moved, f.first, f.n, f.inside, x);
    }
  }

  lemma {:induction false} LoopByFoldLine(seen: seq<string>, table: string, f: Fold, x: string)
    requires LoopHolds(seen, table, f)
    ensures LoopHolds(seen + [x], table, FoldLine(f, table, x))
  {
    if Header(x) == Some(table) {
      LoopByFoldOwn(seen, table, f, x);
    } else if Header(x).Some? || IsArray(Trim(x)) {
      LoopByFoldOther(seen, table, f, x);
    } else {
      LoopByFoldPlain(seen, table, f, x);
    }
  }

  /** The variables after the loop has seen the lines. */
  function FoldLines(lines: seq<string>, table: string): Fold {
    if lines == [] then Fold([], [], -1, 0, false)
    else FoldLine(FoldLines(lines[..|lines| - 1], table), table, lines[|lines| - 1])
  }

  lemma {:induction false} LoopByFoldLines(lines: seq<string>, table: string)
    ensures LoopHolds(lines, table, FoldLines(lines, table))
  {
    if lines != [] {
      var before := lines[..|lines| - 1];
      LoopByFoldLines(before, table);
      LoopByFoldLine(before, table, FoldLines(before, table), lines[|lines| - 1]);
      assert lines == before + [lines[|lines| - 1]];
    } else {
      assert HeadersKept([], table, [], [], 0);
    }
  }

  lemma {:induction false} FoldedInPlace(s: string, table: string)
    ensures var f := FoldLines(Split(s), table);
      && (f.n < 2 ==> Folded(Split(s), table, Split(s)))
      && (f.n >= 2 ==>
            && 1 <= f.first <= |f.out|
            && Folded(Split(s), table, Split(Join(f.out[..f.first] + f.moved + f.out[f.first..]))))
  {
    var lines, f := Split(s), FoldLines(Split(s), table);
    LoopByFoldLines(lines, table);
    if f.n < 2 {
      NothingToFold(lines, table);
    } else {
      FoldedByLoop(lines, table, f.out, f.moved, f.first, f.n, f.inside);
      KeptAreLines(s, table, f);
      SplitJoin(f.out[..f.first] + f.moved + f.out[f.first..]);
    }
  }

  lemma {:induction false} KeptAreLines(s: string, table: string, f: Fold)
    requires LinesKept(Split(s), table, multiset(f.out) + multiset(f.moved)) && 1 <= f.first <= |f.out|
    ensures AreLines(f.out[..f.first] + f.moved + f.out[f.first..])
  {
    SplitGivesLines(s);
    var after := f.out[..f.first] + f.moved + f.out[f.first..];
    forall i | 0 <= i < |after| ensures NEWLINE !in after[i] {
      assert after[i] in f.out || after[i] in f.moved;
      assert after[i] in multiset(f.out) + multiset(f.moved);
    }
  }

  lemma {:induction false} FoldLinesNext(lines: seq<string>, i: nat, table: string)
    requires i < |lines|
    ensures FoldLines(lines[..i + 1], table) == FoldLine(FoldLines(lines[..i], table), table, lines[i])
  {
    assert lines[..i + 1][..i] == lines[..i];
  }

  method FoldTable(s: string, table: string) returns (r: string)
    ensures Folded(Split(s), table, Split(r))
  {
    var lines := Split(s);
    var out: seq<string>, moved: seq<string> := [], [];
    var first, n, inside := -1, 0, false;
    for i := 0 to |lines|
      invariant Fold(out, moved, first, n, inside) == FoldLines(lines[..i], table)
    {
      var line := lines[i];
      FoldLinesNext(lines, i, table);
      var trim := Trim(line);
      var header := IsHeader(trim);
      if header || IsArray(trim) {
        inside := header && HeaderName(trim) == table;
        if inside {
          n := n + 1;
          if n > 1 {
            continue;
          }
        }
      }
      if inside && n > 1 {
        if trim != "" {
          moved := moved + [line];
        }
        continue;
      }
      out := out + [line];
      if inside && trim != "" {
        first := |out|;
      }
    }
    assert lines[..|lines|] == lines;
    FoldedInPlace(s, table);
    if n < 2 {
      return s;
    }
    r := Join(out[..first] + moved + out[first..]);
  }
}
