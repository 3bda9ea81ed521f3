/** removeTOMLKey and removeTOMLTable of home.go. */
module TomlRemove {
  import opened Collections
  import opened TomlText
  import opened Toml
  import opened TomlFold
  import opened TomlEdit

  // ------------------------------------------------------------------ one key

  /** The values that the file gives to d before a second header of its table comes. */
  function FirstValues(lines: seq<string>, d: string): seq<string> {
    if lines == [] then []
    else
      var before, line := lines[..|lines| - 1], lines[|lines| - 1];
      FirstValues(before, d) + FirstValueOf(before, line, d)
  }

  /** What a line adds to them. */
  function FirstValueOf(before: seq<string>, line: string, d: string): seq<string> {
    if Headers(before + [line], TableOf(d)) <= 1 then ValueOf(line, TableAfter(before, ""), d) else []
  }

  predicate InFirstCopy(lines: seq<string>, d: string) {
    FirstValues(lines, d) != []
  }

  ghost predicate OthersSayFirst(before: seq<string>, d: string, after: seq<string>) {
    forall d' :: d' != d ==> FirstValues(after, d') == FirstValues(before, d')
  }

  ghost predicate LosesFirst(before: seq<string>, d: string, after: seq<string>) {
    && History(after, "", d) == (if InFirstCopy(before, d) then Tail(History(before, "", d)) else History(before, "", d))
    && FirstValues(after, d) == Tail(FirstValues(before, d))
  }

  /** What removing d promises. It takes away the first value of d, and only looks for
      it in the first copy of the table. */
  ghost predicate IsRemoved(before: seq<string>, d: string, after: seq<string>) {
    && WellFormed(after)
    && LosesFirst(before, d, after)
    && OthersSay(before, d, after)
    && OthersSayFirst(before, d, after)
    && (forall t :: Headers(after, t) == Headers(before, t))
    && OthersStay(before, d, after)
  }

  lemma {:induction false} FirstNext(lines: seq<string>, line: string, d: string)
    ensures FirstValues(lines + [line], d) == FirstValues(lines, d) + FirstValueOf(lines, line, d)
  {
    assert (lines + [line])[..|lines|] == lines;
  }

  /** They are the history of d in some start of the file that has one copy. */
  lemma {:induction false} FirstCopy(lines: seq<string>, d: string) returns (i: nat)
    ensures i <= |lines| && Headers(lines[..i], TableOf(d)) <= 1 && FirstValues(lines, d) == History(lines[..i], "", d)
    ensures Headers(lines, TableOf(d)) <= 1 ==> i == |lines|
  {
    if lines == [] {
      return 0;
    }
    var before, x := lines[..|lines| - 1], lines[|lines| - 1];
    HeadersNext(before, x);
    assert lines == before + [x];
    i := FirstCopy(before, d);
    if Headers(lines, TableOf(d)) <= 1 {
      assert before[..|before|] == before && lines[..|lines|] == lines;
      return |lines|;
    }
    assert before[..i] == lines[..i];
  }

  lemma {:induction false} FirstIsPrefix(lines: seq<string>, d: string)
    ensures FirstValues(lines, d) <= History(lines, "", d)
    ensures Headers(lines, TableOf(d)) <= 1 ==> FirstValues(lines, d) == History(lines, "", d)
  {
    var i := FirstCopy(lines, d);
    HistoryPrefix(lines, i, d);
    assert i == |lines| ==> lines[..i] == lines;
  }

  lemma {:induction false} HistoryPrefix(lines: seq<string>, i: nat, d: string)
    requires i <= |lines|
    ensures History(lines[..i], "", d) <= History(lines, "", d)
  {
    if i < |lines| {
      assert lines[..|lines| - 1][..i] == lines[..i];
      HistoryPrefix(lines[..|lines| - 1], i, d);
    } else {
      assert lines[..i] == lines;
    }
  }

  /** What the first copy loses with a line that opens nothing, before which it gave d
      no value, or which gives d none. */
  lemma {:induction false} FirstWithout(a: seq<string>, x: string, c: seq<string>, d: string)
    requires !Opens(x) && (FirstValues(a, d) == [] || FirstValueOf(a, x, d) == [])
    ensures FirstValues(a + [x] + c, d) == FirstValueOf(a, x, d) + FirstValues(a + c, d)
  {
    if c == [] {
      assert a + c == a && a + [x] + c == a + [x];
      FirstNext(a, x, d);
      assert FirstValueOf(a, x, d) + [] == FirstValueOf(a, x, d);
    } else {
      var b, y := c[..|c| - 1], c[|c| - 1];
      assert c == b + [y];
      SumAssociates(a, b, [y]);
      SumAssociates(a + [x], b, [y]);
      FirstWithout(a, x, b, d);
      SameStep(a, x, b, y, d);
      FirstGrows(a + [x] + b, a + b, y, d, FirstValueOf(a, x, d));
    }
  }

  lemma {:induction false} FirstGrows(more: seq<string>, less: seq<string>, y: string, d: string, lost: seq<string>)
    requires FirstValues(more, d) == lost + FirstValues(less, d) && FirstValueOf(more, y, d) == FirstValueOf(less, y, d)
    ensures FirstValues(more + [y], d) == lost + FirstValues(less + [y], d)
  {
    FirstNext(more, y, d);
    FirstNext(less, y, d);
    SumAssociates(lost, FirstValues(less, d), FirstValueOf(less, y, d));
  }

  lemma {:induction false} SameStep(a: seq<string>, x: string, b: seq<string>, y: string, d: string)
    requires !Opens(x)
    ensures FirstValueOf(a + [x] + b, y, d) == FirstValueOf(a + b, y, d)
  {
    HeadersAround(a, x, b + [y], TableOf(d));
    assert a + [x] + (b + [y]) == a + [x] + b + [y] && a + (b + [y]) == a + b + [y];
    TableAfterAppend(a + [x], b, "");
    TableAfterAppend(a, b, "");
    HistoryNext(a, x, "");
  }

  lemma {:induction false} NoCommentValue(lines: seq<string>, open: string, d: string)
    requires WellFormed(lines) && StartsWith(SplitKey(d).1, '#')
    ensures History(lines, open, d) == []
  {
    if lines != [] {
      var before, x := lines[..|lines| - 1], lines[|lines| - 1];
      NoCommentValue(before, open, d);
      if Header(x) == None {
        CarrierEntry(x, SplitKey(d).1);
      }
      if ValueOf(x, TableAfter(before, open), d) != [] {
        SplitDotted(TableAfter(before, open), Entry(x).value.0);
      }
    }
  }

  lemma {:induction false} NoCommentFirst(lines: seq<string>, d: string)
    requires WellFormed(lines) && StartsWith(SplitKey(d).1, '#')
    ensures History(lines, "", d) == [] && FirstValues(lines, d) == []
  {
    NoCommentValue(lines, "", d);
    FirstIsPrefix(lines, d);
  }

  lemma {:induction false} SaysRemoved(a: seq<string>, x: string, c: seq<string>, d: string)
    requires Canonical(d) && TableAfter(a, "") == TableOf(d) && History(a, "", d) == []
    requires !Opens(x) && Carries(x, SplitKey(d).1)
    ensures OthersSay(a + [x] + c, d, a + c)
    ensures forall t :: Headers(a + c, t) == Headers(a + [x] + c, t)
    ensures if StartsWith(SplitKey(d).1, '#') then History(a + c, "", d) == History(a + [x] + c, "", d)
            else History(a + [x], "", d) != [] && History(a + c, "", d) == Tail(History(a + [x] + c, "", d))
  {
    CarrierEntry(x, SplitKey(d).1);
    forall d' | d' != d ensures History(a + c, "", d') == History(a + [x] + c, "", d') {
      WithoutValue(a, x, c, d');
    }
    forall t ensures Headers(a + c, t) == Headers(a + [x] + c, t) {
      HeadersAround(a, x, c, t);
    }
    if StartsWith(SplitKey(d).1, '#') {
      WithoutValue(a, x, c, d);
    } else {
      CarrierValue(x, d);
      HistoryNext(a, x, "");
      Around(a, x, c, d);
      HistoryAppend(a, c, "", d);
    }
  }

  lemma {:induction false} SaysRemovedFirst(a: seq<string>, x: string, c: seq<string>, d: string)
    requires Canonical(d) && TableAfter(a, "") == TableOf(d) && History(a, "", d) == [] && Headers(a, TableOf(d)) <= 1
    requires !Opens(x) && Carries(x, SplitKey(d).1)
    ensures OthersSayFirst(a + [x] + c, d, a + c)
    ensures !StartsWith(SplitKey(d).1, '#') ==>
      FirstValues(a + [x] + c, d) != [] && FirstValues(a + c, d) == Tail(FirstValues(a + [x] + c, d))
  {
    CarrierEntry(x, SplitKey(d).1);
    forall d' | d' != d ensures FirstValues(a + c, d') == FirstValues(a + [x] + c, d') {
      if !StartsWith(SplitKey(d).1, '#') {
        CarrierValue(x, d);
      }
      assert FirstValueOf(a, x, d') == [];
      FirstWithout(a, x, c, d');
      assert [] + FirstValues(a + c, d') == FirstValues(a + c, d');
    }
    if !StartsWith(SplitKey(d).1, '#') {
      CarrierValue(x, d);
      FirstIsPrefix(a, d);
      HeadersNext(a, x);
      FirstWithout(a, x, c, d);
    }
  }

  lemma {:induction false} LosesOwn(a: seq<string>, x: string, c: seq<string>, d: string)
    requires Canonical(d) && WellFormed(a + [x] + c) && WellFormed(a + c)
    requires TableAfter(a, "") == TableOf(d) && History(a, "", d) == [] && Headers(a, TableOf(d)) <= 1
    requires !Opens(x) && Carries(x, SplitKey(d).1)
    ensures LosesFirst(a + [x] + c, d, a + c)
  {
    if StartsWith(SplitKey(d).1, '#') {
      NoCommentFirst(a + [x] + c, d);
      NoCommentFirst(a + c, d);
    } else {
      SaysRemoved(a, x, c, d);
      SaysRemovedFirst(a, x, c, d);
    }
  }

  lemma {:induction false} RemovedBetween(a: seq<string>, x: string, c: seq<string>, d: string)
    requires Canonical(d) && WellFormed(a + [x] + c)
    requires TableAfter(a, "") == TableOf(d) && History(a, "", d) == [] && Headers(a, TableOf(d)) <= 1
    requires !Opens(x) && Carries(x, SplitKey(d).1)
    ensures IsRemoved(a + [x] + c, d, a + c)
  {
    var lines := a + [x] + c;
    SaysRemoved(a, x, c, d);
    SaysRemovedFirst(a, x, c, d);
    OthersReplaced(a, x, x, c, d);
    assert lines[|a|] == x;
    PartsAreWellFormed(a, c, x, x);
    LosesOwn(a, x, c, d);
  }

  lemma {:induction false} FirstCopySilent(lines: seq<string>, d: string, body: (int, int), i: int)
    requires WellFormed(lines) && IsFirstBody(lines, TableOf(d), body)
    requires forall j :: body.0 <= j < body.1 ==> !Carries(lines[j], SplitKey(d).1)
    requires body.1 <= i <= |lines| && Headers(lines[..i], TableOf(d)) <= 1
    ensures History(lines[..i], "", d) == []
  {
    var a, c := lines[..body.1], lines[body.1..i];
    assert lines[..i] == a + c;
    InBody(lines, body, body.1, d);
    BehindBody(lines, d, body, i);
    HistoryAppend(a, c, "", d);
  }

  /** Where the first body has no carrier, the first copy gives d no value. */
  lemma {:induction false} NotInFirstCopy(lines: seq<string>, d: string, body: (int, int))
    requires WellFormed(lines) && IsFirstBody(lines, TableOf(d), body)
    requires forall j :: body.0 <= j < body.1 ==> !Carries(lines[j], SplitKey(d).1)
    ensures !InFirstCopy(lines, d)
  {
    var i := FirstCopy(lines, d);
    if i <= body.0 {
      BeforeBody(lines, TableOf(d), body, i);
    } else if i <= body.1 {
      InBody(lines, body, i, d);
    } else {
      FirstCopySilent(lines, d, body, i);
    }
  }

  lemma {:induction false} NoCopy(lines: seq<string>, d: string)
    requires WellFormed(lines) && TableOf(d) != "" && Headers(lines, TableOf(d)) == 0
    ensures !InFirstCopy(lines, d)
  {
    FirstIsPrefix(lines, d);
    NeverOpen(lines, "", TableOf(d));
  }

  lemma {:induction false} RemovedAt(lines: seq<string>, d: string, i: nat)
    requires WellFormed(lines) && Canonical(d) && i < |lines|
    requires TableAfter(lines[..i], "") == TableOf(d) && History(lines[..i], "", d) == []
    requires Headers(lines[..i], TableOf(d)) <= 1
    requires !Opens(lines[i]) && Carries(lines[i], SplitKey(d).1)
    ensures IsRemoved(lines, d, lines[..i] + lines[i + 1..])
  {
    CutOut(lines, i);
    RemovedBetween(lines[..i], lines[i], lines[i + 1..], d);
  }

  lemma CutOut(lines: seq<string>, i: nat)
    requires i < |lines|
    ensures lines == lines[..i] + [lines[i]] + lines[i + 1..]
  {
  }

  /** A file that loses its only line is left with one empty line. */
  lemma {:induction false} RemovedText(before: seq<string>, d: string, after: seq<string>)
    requires IsRemoved(before, d, after) && AreLines(after)
    ensures IsRemoved(before, d, Split(Join(after)))
  {
    if after == [] {
      BlankGap([], [""]);
      assert [] + [""] == [""] == Split("");
      forall d' ensures FirstValues([""], d') == FirstValues([], d') {
        FirstIsPrefix([""], d');
      }
    } else {
      SplitJoin(after);
    }
  }

  lemma {:induction false} DeletedText(s: string, d: string, i: nat)
    requires i < |Split(s)| && IsRemoved(Split(s), d, Split(s)[..i] + Split(s)[i + 1..])
    ensures IsRemoved(Split(s), d, Split(Join(Split(s)[..i] + Split(s)[i + 1..])))
  {
    SplitGivesLines(s);
    LinesWithout(Split(s), i);
    RemovedText(Split(s), d, Split(s)[..i] + Split(s)[i + 1..]);
  }

  lemma LinesWithout(lines: seq<string>, i: nat)
    requires i < |lines| && AreLines(lines)
    ensures AreLines(lines[..i] + lines[i + 1..])
  {
  }

  lemma {:induction false} RemovedInBody(lines: seq<string>, d: string, body: (int, int), i: int)
    requires WellFormed(lines) && Canonical(d) && IsFirstBody(lines, TableOf(d), body)
    requires body.0 <= i < body.1 && Carries(lines[i], SplitKey(d).1)
    requires forall j :: body.0 <= j < i ==> !Carries(lines[j], SplitKey(d).1)
    ensures IsRemoved(lines, d, lines[..i] + lines[i + 1..])
  {
    InBody(lines, body, i, d);
    RemovedAt(lines, d, i);
  }

  lemma {:induction false} RemovedByDelete(s: string, d: string, body: (int, int), i: int)
    requires WellFormed(Split(s)) && Canonical(d) && IsFirstBody(Split(s), TableOf(d), body)
    requires body.0 <= i < body.1 && Carries(Split(s)[i], SplitKey(d).1)
    requires forall j :: body.0 <= j < i ==> !Carries(Split(s)[j], SplitKey(d).1)
    ensures IsRemoved(Split(s), d, Split(Join(Split(s)[..i] + Split(s)[i + 1..])))
  {
    RemovedInBody(Split(s), d, body, i);
    DeletedText(s, d, i);
  }

  lemma {:induction false} NothingToRemove(lines: seq<string>, d: string)
    requires WellFormed(lines) && !InFirstCopy(lines, d)
    ensures IsRemoved(lines, d, lines)
  {
  }

  /** The promise of removeTOMLKey. */
  ghost predicate Removes(s: string, dotted: string, r: string) {
    WellFormed(Split(s)) && Canonical(dotted) ==> IsRemoved(Split(s), dotted, Split(r))
  }

  lemma {:induction false} NoTableNoValue(s: string, dotted: string, bodies: map<string, (int, int)>)
    requires AreBodies(Split(s), bodies) && TableOf(dotted) !in bodies
    ensures Removes(s, dotted, s)
  {
    if WellFormed(Split(s)) && Canonical(dotted) {
      NoCopy(Split(s), dotted);
      NothingToRemove(Split(s), dotted);
    }
  }

  lemma {:induction false} NoCarrierNoValue(s: string, dotted: string, bodies: map<string, (int, int)>)
    requires AreBodies(Split(s), bodies) && TableOf(dotted) in bodies
    requires var body := bodies[TableOf(dotted)];
      forall j :: body.0 <= j < body.1 ==> !Carries(Split(s)[j], SplitKey(dotted).1)
    ensures Removes(s, dotted, s)
  {
    if WellFormed(Split(s)) && Canonical(dotted) {
      NotInFirstCopy(Split(s), dotted, bodies[TableOf(dotted)]);
      NothingToRemove(Split(s), dotted);
    }
  }

  lemma {:induction false} DeletesCarrier(s: string, dotted: string, bodies: map<string, (int, int)>, i: int)
    requires AreBodies(Split(s), bodies) && TableOf(dotted) in bodies
    requires var body := bodies[TableOf(dotted)];
      && body.0 <= i < body.1 && Carries(Split(s)[i], SplitKey(dotted).1)
      && forall j :: body.0 <= j < i ==> !Carries(Split(s)[j], SplitKey(dotted).1)
    ensures Removes(s, dotted, Join(Split(s)[..i] + Split(s)[i + 1..]))
  {
    if WellFormed(Split(s)) && Canonical(dotted) {
      RemovedByDelete(s, dotted, bodies[TableOf(dotted)], i);
    }
  }

  method RemoveKey(s: string, dotted: string) returns (r: string)
    ensures Removes(s, dotted, r)
  {
    var (table, key) := SplitKey(dotted);
    var lines, bodies := ParseLines(s);
    if table !in bodies {
      NoTableNoValue(s, dotted, bodies);
      return s;
    }
    var body := bodies[table];
    for i := body.0 to body.1
      invariant forall j :: body.0 <= j < i ==> !Carries(lines[j], key)
    {
      if Carries(lines[i], key) {
        DeletesCarrier(s, dotted, bodies, i);
        return Join(lines[..i] + lines[i + 1..]);
      }
    }
    NoCarrierNoValue(s, dotted, bodies);
    return s;
  }

  // ---------------------------------------------------------------- one table

  /** Removing a table takes away what is named `table.` and more, and its headers, and
      nothing else. */
  ghost predicate IsRemovedTable(before: seq<string>, table: string, after: seq<string>) {
    && WellFormed(after)
    && (forall d :: History(after, "", d) == if table + "." <= d then [] else History(before, "", d))
    && (forall t :: Headers(after, t) == if t == table || table + "." <= t then 0 else Headers(before, t))
  }

  /** The table itself or one of its sub-tables. */
  predicate Under(name: string, table: string) {
    name == table || table + "." <= name
  }

  /** The same by the tables of the keys, as the loop sees it. */
  ghost predicate Silenced(before: seq<string>, table: string, after: seq<string>) {
    && WellFormed(after)
    && (forall d :: History(after, "", d) ==
          if TableOf(d) != "" && Under(TableOf(d), table) then [] else History(before, "", d))
    && (forall t :: Headers(after, t) == if Under(t, table) then 0 else Headers(before, t))
  }

  /** A dotted key with a table is of that table or a sub-table of it exactly when it
      starts with the table and a dot. */
  lemma {:induction false} UnderIff(name: string, key: string, table: string)
    requires '.' !in key
    ensures Under(name, table) <==> table + "." <= name + "." + key
  {
    var d := name + "." + key;
    assert forall i :: |name| < i < |d| ==> d[i] == key[i - |name| - 1];
    if table + "." <= d && name != table {
      assert d[|table|] == '.';
      assert |table| <= |name| && name == d[..|name|] && table + "." == d[..|table| + 1];
    }
  }

  lemma {:induction false} PrefixHasDot(table: string, d: string)
    requires table + "." <= d
    ensures '.' in d
  {
    assert d[|table|] == '.';
  }

  lemma {:induction false} ValuedKey(lines: seq<string>, d: string)
    requires WellFormed(lines) && History(lines, "", d) != []
    ensures exists name, key :: '.' !in key && d == Dotted(name, key)
  {
    var before, x := lines[..|lines| - 1], lines[|lines| - 1];
    if ValueOf(x, TableAfter(before, ""), d) == [] {
      ValuedKey(before, d);
    } else {
      assert d == Dotted(TableAfter(before, ""), Entry(x).value.0);
    }
  }

  lemma {:induction false} SilencedKey(before: seq<string>, table: string, d: string)
    requires WellFormed(before) && History(before, "", d) != []
    ensures TableOf(d) != "" && Under(TableOf(d), table) <==> table + "." <= d
  {
    ValuedKey(before, d);
    var name, key :| '.' !in key && d == Dotted(name, key);
    SplitDotted(name, key);
    if name == "" {
      if table + "." <= d {
        PrefixHasDot(table, d);
      }
    } else {
      UnderIff(name, key, table);
    }
  }

  lemma {:induction false} SilencedIsRemoved(before: seq<string>, table: string, after: seq<string>)
    requires WellFormed(before) && Silenced(before, table, after)
    ensures IsRemovedTable(before, table, after)
  {
    forall d ensures History(after, "", d) == if table + "." <= d then [] else History(before, "", d) {
      if History(before, "", d) != [] {
        SilencedKey(before, table, d);
      }
    }
  }

  /** The loop of removeTOMLTable: the lines kept so far. */
  ghost predicate Removing(seen: seq<string>, table: string, out: seq<string>, skip: bool) {
    && Silenced(seen, table, out)
    && (skip ==> TableAfter(seen, "") != "" && Under(TableAfter(seen, ""), table))
    && (!skip ==> TableAfter(out, "") == TableAfter(seen, ""))
    && (TableAfter(seen, "") != "" && Under(TableAfter(seen, ""), table) ==> skip)
  }

  lemma {:induction false} RemovingByHeader(seen: seq<string>, table: string, out: seq<string>, skip: bool, x: string)
    requires Removing(seen, table, out, skip) && GoodLine(x) && Header(x).Some?
    ensures var skip' := Under(Header(x).value, table);
      Removing(seen + [x], table, if skip' then out else out + [x], skip')
  {
    OpensTable(seen, x);
    if Under(Header(x).value, table) {
      SkippedTableByHeader(seen, table, out, x);
    } else {
      RemovedTableByHeader(seen, table, out, x);
      OpensTable(out, x);
    }
  }

  lemma {:induction false} OpensTable(lines: seq<string>, x: string)
    requires Header(x).Some? && GoodLine(x)
    ensures TableAfter(lines + [x], "") == Header(x).value != ""
  {
    QuietHeader(lines, x);
  }

  lemma {:induction false} SkippedTableByHeader(seen: seq<string>, table: string, out: seq<string>, x: string)
    requires Silenced(seen, table, out) && GoodLine(x) && Header(x).Some? && Under(Header(x).value, table)
    ensures Silenced(seen + [x], table, out)
  {
    QuietHeader(seen, x);
    HeadersNext(seen, x);
  }

  lemma {:induction false} RemovedTableByHeader(seen: seq<string>, table: string, out: seq<string>, x: string)
    requires Silenced(seen, table, out) && GoodLine(x) && Header(x).Some? && !Under(Header(x).value, table)
    ensures Silenced(seen + [x], table, out + [x])
  {
    QuietHeader(seen, x);
    HeadersNext(seen, x);
    QuietHeader(out, x);
    HeadersNext(out, x);
    WellFormedNext(out, x);
  }

  lemma {:induction false} QuietHeader(lines: seq<string>, x: string)
    requires Header(x).Some? && GoodLine(x)
    ensures forall d :: History(lines + [x], "", d) == History(lines, "", d)
    ensures TableAfter(lines + [x], "") == Header(x).value != ""
  {
    HistoryNext(lines, x, "");
  }

  lemma {:induction false} OwnTableOnly(x: string, table: string)
    requires GoodLine(x)
    ensures forall d :: ValueOf(x, table, d) != [] ==> TableOf(d) == table
  {
    forall d | ValueOf(x, table, d) != [] ensures TableOf(d) == table {
      ValueInOwnTable(x, table, d);
    }
  }

  lemma {:induction false} RemovingByDropped(seen: seq<string>, table: string, out: seq<string>, x: string)
    requires Removing(seen, table, out, true) && GoodLine(x) && Header(x) == None
    ensures Removing(seen + [x], table, out, true)
  {
    HistoryNext(seen, x, "");
    HeadersNext(seen, x);
    OwnTableOnly(x, TableAfter(seen, ""));
  }

  lemma {:induction false} RemovingByKept(seen: seq<string>, table: string, out: seq<string>, x: string)
    requires Removing(seen, table, out, false) && GoodLine(x) && Header(x) == None
    ensures Removing(seen + [x], table, out + [x], false)
  {
    WellFormedNext(out, x);
    HistoryNext(seen, x, "");
    HistoryNext(out, x, "");
    HeadersNext(seen, x);
    HeadersNext(out, x);
    OwnTableOnly(x, TableAfter(seen, ""));
  }

  /** Whether the loop skips, after a line. */
  function Skips(line: string, table: string, skip: bool): bool {
    if Header(line).Some? then Under(Header(line).value, table)
    else skip && !IsArray(Trim(line))
  }

  ghost predicate RemovingSoFar(seen: seq<string>, table: string, out: seq<string>, skip: bool) {
    && (forall x :: x in out ==> x in seen)
    && (WellFormed(seen) ==> Removing(seen, table, out, skip))
  }

  lemma {:induction false} RemovingNext(seen: seq<string>, table: string, out: seq<string>, skip: bool, x: string)
    requires RemovingSoFar(seen, table, out, skip)
    ensures var skip' := Skips(x, table, skip);
      RemovingSoFar(seen + [x], table, if skip' then out else out + [x], skip')
  {
    WellFormedNext(seen, x);
    if WellFormed(seen + [x]) {
      if Header(x).Some? {
        RemovingByHeader(seen, table, out, skip, x);
      } else if skip {
        RemovingByDropped(seen, table, out, x);
      } else {
        RemovingByKept(seen, table, out, x);
      }
    }
  }

  /** The variables of the loop: the lines kept, and whether it skips. */
  function Kept(lines: seq<string>, table: string): (seq<string>, bool) {
    if lines == [] then ([], false)
    else
      var (out, skip) := Kept(lines[..|lines| - 1], table);
      var line := lines[|lines| - 1];
      if Skips(line, table, skip) then (out, true) else (out + [line], false)
  }

  lemma {:induction false} RemovingAll(lines: seq<string>, table: string)
    ensures RemovingSoFar(lines, table, Kept(lines, table).0, Kept(lines, table).1)
  {
    if lines != [] {
      var before, x := lines[..|lines| - 1], lines[|lines| - 1];
      RemovingAll(before, table);
      RemovingNext(before, table, Kept(before, table).0, Kept(before, table).1, x);
      assert lines == before + [x];
    }
  }

  lemma {:induction false} RemovedAll(s: string, table: string)
    ensures WellFormed(Split(s)) ==> IsRemovedTable(Split(s), table, Split(Join(Kept(Split(s), table).0)))
  {
    RemovingAll(Split(s), table);
    SplitGivesLines(s);
    KeptText(Split(s), table, Kept(Split(s), table).0);
    if WellFormed(Split(s)) {
      SilencedIsRemoved(Split(s), table, Split(Join(Kept(Split(s), table).0)));
    }
  }

  method RemoveTable(s: string, table: string) returns (r: string)
    ensures WellFormed(Split(s)) ==> IsRemovedTable(Split(s), table, Split(r))
  {
    var lines, out, skip := Split(s), [], false;
    for i := 0 to |lines|
      invariant (out, skip) == Kept(lines[..i], table)
    {
      var line := lines[i];
      assert lines[..i + 1][..i] == lines[..i];
      var trim := Trim(line);
      if IsHeader(trim) {
        skip := HeaderName(trim) == table || table + "." <= HeaderName(trim);
      } else if IsArray(trim) {
        skip := false;
      }
      if !skip {
        out := out + [line];
      }
    }
    assert lines[..|lines|] == lines;
    RemovedAll(s, table);
    r := Join(out);
  }

  lemma {:induction false} KeptText(lines: seq<string>, table: string, out: seq<string>)
    requires AreLines(lines) && forall x :: x in out ==> x in lines
    ensures Silenced(lines, table, out) ==> Silenced(lines, table, Split(Join(out)))
  {
    if out == [] {
      BlankGap([], [""]);
      assert [] + [""] == [""] == Split("");
    } else {
      forall i | 0 <= i < |out| ensures NEWLINE !in out[i] {
        assert out[i] in lines;
      }
      SplitJoin(out);
    }
  }
}
