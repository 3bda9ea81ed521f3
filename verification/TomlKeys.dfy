/** MergeKeys and DropKeys of home.go, on TOML files, and what the edits mean for the
    map that tomlValues reads. */
module TomlKeys {
  import opened Collections
  import opened TomlText
  import opened Toml
  import opened TomlFold
  import opened TomlEdit
  import opened TomlRemove

  // ------------------------------------------------------------ keys and maps

  function Lookup(values: map<string, string>, d: string): Option<string> {
    if d in values then Some(values[d]) else None
  }

  function Last(values: seq<string>): Option<string> {
    if values == [] then None else Some(values[|values| - 1])
  }

  lemma {:induction false} MeansAt(lines: seq<string>, values: map<string, string>, d: string)
    requires Means(lines, values)
    ensures Lookup(values, d) == Last(History(lines, "", d))
  {
    assert History(lines, "", d) == [] ==> d !in values;
  }

  /** Where a key keeps its history, it keeps its value. */
  lemma {:induction false} SameValue(before: seq<string>, after: seq<string>, values: map<string, string>,
                                     now: map<string, string>, d: string)
    requires Means(before, values) && Means(after, now) && History(after, "", d) == History(before, "", d)
    ensures Lookup(now, d) == Lookup(values, d)
  {
    MeansAt(before, values, d);
    MeansAt(after, now, d);
  }

  lemma {:induction false} OneKeyDiffers(values: map<string, string>, now: map<string, string>, d: string)
    requires forall d' :: d' != d ==> Lookup(now, d') == Lookup(values, d')
    ensures forall raw :: now == values[d := raw] <==> Lookup(now, d) == Some(raw)
    ensures now == values - {d} <==> Lookup(now, d) == None
  {
    forall d' | d' != d ensures d' in now <==> d' in values
      ensures d' in now ==> now[d'] == values[d']
    {
      assert Lookup(now, d') == Lookup(values, d');
    }
    forall raw | Lookup(now, d) == Some(raw) ensures now == values[d := raw] {}
  }

  lemma {:induction false} OthersLookSame(before: seq<string>, d: string, after: seq<string>,
                                          values: map<string, string>, now: map<string, string>)
    requires OthersSay(before, d, after) && Means(before, values) && Means(after, now)
    ensures forall d' :: d' != d ==> Lookup(now, d') == Lookup(values, d')
  {
    forall d' | d' != d ensures Lookup(now, d') == Lookup(values, d') {
      SameValue(before, after, values, now, d');
    }
  }

  // --------------------------------------------------------- one edit, on the map

  /** A key with these values takes the new one when it is set. */
  predicate Yields(values: seq<string>, raw: string) {
    |values| <= 1 || values[|values| - 1] == raw
  }

  lemma {:induction false} LastAfterSet(values: seq<string>, raw: string)
    ensures Last([raw] + Tail(values)) == Some(raw) <==> Yields(values, raw)
  {
  }

  lemma {:induction false} SetHistory(before: seq<string>, d: string, raw: string, after: seq<string>)
    requires IsSet(before, d, raw, after)
    ensures History(after, "", d) == [raw] + Tail(History(before, "", d))
    ensures OthersSay(before, d, after)
  {
  }

  /** Setting a key is an update of the map exactly when the file gave the key at
      most one value, or its last value was the new one already. */
  lemma {:induction false} SetIsUpdateIff(before: seq<string>, d: string, raw: string, after: seq<string>,
                                          values: map<string, string>, now: map<string, string>)
    requires Means(before, values) && Means(after, now)
    ensures IsSet(before, d, raw, after) ==> (now == values[d := raw] <==> Yields(History(before, "", d), raw))
  {
    if IsSet(before, d, raw, after) {
      SetHistory(before, d, raw, after);
      OthersLookSame(before, d, after, values, now);
      OneKeyDiffers(values, now, d);
      MeansAt(after, now, d);
      LastAfterSet(History(before, "", d), raw);
    }
  }

  /** Removing a key deletes it from the map exactly when the file gave it no value,
      or one value only and that in the first copy of its table. */
  lemma {:induction false} RemoveIsDeleteIff(before: seq<string>, d: string, after: seq<string>,
                                             values: map<string, string>, now: map<string, string>)
    requires IsRemoved(before, d, after) && Means(before, values) && Means(after, now)
    ensures now == values - {d} <==>
      History(before, "", d) == [] || (|History(before, "", d)| == 1 && InFirstCopy(before, d))
  {
    OthersLookSame(before, d, after, values, now);
    OneKeyDiffers(values, now, d);
    MeansAt(after, now, d);
  }

  /** In a table that is not repeated every value is in the first copy. */
  lemma {:induction false} OnlyCopy(lines: seq<string>, d: string)
    requires Headers(lines, TableOf(d)) <= 1
    ensures FirstValues(lines, d) == History(lines, "", d)
  {
    FirstIsPrefix(lines, d);
  }

  /** Setting a key and removing it again leaves the values behind the first one. */
  lemma {:induction false} SetThenRemove(before: seq<string>, d: string, raw: string, mid: seq<string>,
                                     after: seq<string>)
    ensures IsSet(before, d, raw, mid) && IsRemoved(mid, d, after) ==>
      History(after, "", d) == Tail(History(before, "", d)) && OthersSay(before, d, after)
  {
    if IsSet(before, d, raw, mid) {
      NoNameless(mid);
      OnlyCopy(mid, d);
    }
  }

  /** Removing a table takes from the map exactly the keys that start with it and a
      dot: those of the table and of its sub-tables. */
  lemma {:induction false} RemoveTableIsRestriction(before: seq<string>, table: string, after: seq<string>,
                                                    values: map<string, string>, now: map<string, string>)
    requires IsRemovedTable(before, table, after) && Means(before, values) && Means(after, now)
    ensures now == (map d | d in values && !(table + "." <= d) :: values[d])
  {
    var rest := map d | d in values && !(table + "." <= d) :: values[d];
    forall d ensures Lookup(now, d) == Lookup(rest, d) {
      MeansAt(after, now, d);
      MeansAt(before, values, d);
      RestrictedHistory(before, table, after, d);
    }
    SameMap(now, rest);
  }

  lemma {:induction false} RestrictedHistory(before: seq<string>, table: string, after: seq<string>, d: string)
    requires IsRemovedTable(before, table, after)
    ensures History(after, "", d) == if table + "." <= d then [] else History(before, "", d)
  {
  }

  lemma {:induction false} SameMap(a: map<string, string>, b: map<string, string>)
    requires forall d :: Lookup(a, d) == Lookup(b, d)
    ensures a == b
  {
    forall d ensures d in a <==> d in b
      ensures d in a ==> a[d] == b[d]
    {
      assert Lookup(a, d) == Lookup(b, d);
    }
  }

  /** Folding a table leaves the map as it is, repeated keys included. */
  lemma {:induction false} FoldIsIdentity(before: seq<string>, table: string, after: seq<string>,
                                          values: map<string, string>, now: map<string, string>)
    requires table != "" && WellFormed(before) && Folded(before, table, after)
    requires Means(before, values) && Means(after, now)
    ensures now == values
  {
    MeaningIsUnique(after, values, now);
  }

  // ------------------------------------------------------- where the edits fall short

  /** A file where a key has two values: SetIsUpdateIff says that setting it to 3
      leaves it at 2. */
  lemma {:induction false} RepeatedKeyKeepsItsLastValue()
    ensures var lines := ["k = 1", "k = 2"];
      WellFormed(lines) && Writable("k", "3") && History(lines, "", "k") == ["1", "2"]
  {
    KeyK();
    assert "k" + " = " + "1" == "k = 1" && "k" + " = " + "2" == "k = 2";
    ValueLine("k", "1", "k = 1");
    ValueLine("k", "2", "k = 2");
    TwoValues("k = 1", "k = 2", "k");
  }

  lemma {:induction false} KeyK()
    ensures SplitKey("k") == ("", "k") && Writable("k", "1") && Writable("k", "2") && Writable("k", "3")
  {
    SplitDotted("", "k");
  }

  lemma {:induction false} ValueLine(d: string, raw: string, line: string)
    requires Writable(d, raw) && line == SplitKey(d).1 + " = " + raw
    ensures GoodLine(line) && Header(line) == None && ValueOf(line, TableOf(d), d) == [raw]
  {
    WrittenLine(d, raw);
    CarrierValue(line, d);
  }

  lemma {:induction false} TwoValues(one: string, two: string, d: string)
    requires GoodLine(one) && GoodLine(two) && Header(one) == None && Header(two) == None && TableOf(d) == ""
    ensures WellFormed([one, two])
    ensures History([one, two], "", d) == ValueOf(one, "", d) + ValueOf(two, "", d)
  {
    HistoryNext([], one, "");
    HistoryNext([one], two, "");
    assert [] + [one] == [one] && [one] + [two] == [one, two];
  }

  /** A file where only the second copy of a table holds a key: RemoveIsDeleteIff says
      that removing the key leaves it there. */
  lemma {:induction false} LaterCopyIsMissed()
    ensures var lines := ["[a]", "[a]", "k = 1"];
      WellFormed(lines) && Canonical("a.k") && History(lines, "", "a.k") == ["1"] && !InFirstCopy(lines, "a.k")
  {
    assert Dotted("a", "k") == "a.k";
    SplitDotted("a", "k");
    assert SplitKey("a.k") == ("a", "k");
    assert "k" + " = " + "1" == "k = 1" && "[" + "a" + "]" == "[a]";
    HeaderLine("a");
    ValueLine("a.k", "1", "k = 1");
    TwoCopies("[a]", "k = 1", "a.k");
  }

  lemma {:induction false} TwoHeaders(head: string, d: string)
    requires Header(head) == Some(TableOf(d))
    ensures History([head], "", d) == [] && History([head, head], "", d) == []
    ensures TableAfter([head, head], "") == TableOf(d) && Headers([head, head], TableOf(d)) == 2
  {
    HistoryNext([], head, "");
    HistoryNext([head], head, "");
    HeadersNext([], head);
    HeadersNext([head], head);
    assert [] + [head] == [head] && [head] + [head] == [head, head];
  }

  lemma {:induction false} TwoCopies(head: string, line: string, d: string)
    requires Header(head) == Some(TableOf(d)) && Header(line) == None && ValueOf(line, TableOf(d), d) == ["1"]
    requires GoodLine(head) && GoodLine(line)
    ensures WellFormed([head, head, line])
    ensures History([head, head, line], "", d) == ["1"] && !InFirstCopy([head, head, line], d)
  {
    TwoHeaders(head, d);
    ThirdLine([head, head], line, d);
    GoodThree(head, line);
    assert [head, head, line] == [head, head] + [line];
  }

  lemma {:induction false} GoodThree(head: string, line: string)
    requires GoodLine(head) && GoodLine(line)
    ensures WellFormed([head, head] + [line])
  {
    assert WellFormed([head, head]);
    WellFormedNext([head, head], line);
  }

  lemma {:induction false} ThirdLine(a: seq<string>, line: string, d: string)
    requires History(a, "", d) == [] && TableAfter(a, "") == TableOf(d) && Headers(a, TableOf(d)) == 2
    requires Header(line) == None && ValueOf(line, TableOf(d), d) == ["1"]
    ensures History(a + [line], "", d) == ["1"] && !InFirstCopy(a + [line], d)
  {
    HistoryNext(a, line, "");
    HeadersNext(a, line);
    FirstNext(a, line, d);
    FirstIsPrefix(a, d);
  }

  // ---------------------------------------------------------------- user files

  /** A file whose keys and tables can be written into another file: none starts with
      a bracket, and no table with NUL. */
  ghost predicate IsUserFile(lines: seq<string>) {
    && WellFormed(lines)
    && (forall i :: 0 <= i < |lines| && Header(lines[i]).Some? ==>
          !StartsWith(Header(lines[i]).value, '[') && !StartsWith(Header(lines[i]).value, NUL))
    && (forall i :: 0 <= i < |lines| && Entry(lines[i]).Some? ==> !StartsWith(Entry(lines[i]).value.0, '['))
  }

  lemma {:induction false} HeaderIsName(line: string)
    requires Header(line).Some? && NEWLINE !in line
    requires !StartsWith(Header(line).value, '[') && !StartsWith(Header(line).value, NUL)
    ensures IsName(Header(line).value)
  {
    var trim := Trim(line);
    TrimFacts(line);
    TrimFacts(trim[1..|trim| - 1]);
    forall c | c in Header(line).value ensures c in line {
      assert c in trim[1..|trim| - 1];
    }
  }

  lemma {:induction false} UserTable(lines: seq<string>)
    requires IsUserFile(lines) && AreLines(lines)
    ensures IsName(TableAfter(lines, ""))
  {
    if lines != [] {
      if Header(lines[|lines| - 1]).Some? {
        HeaderIsName(lines[|lines| - 1]);
      } else {
        UserTable(lines[..|lines| - 1]);
      }
    }
  }

  lemma {:induction false} EntryIsClean(line: string)
    requires Entry(line).Some? && NEWLINE !in line && GoodLine(line)
    ensures var (key, value) := Entry(line).value;
      && Trimmed(key) && '=' !in key && NEWLINE !in key && !StartsWith(key, '#')
      && Trimmed(value) && NEWLINE !in value
  {
    var trim := Trim(line);
    var (k, v) := Cut(trim).value;
    TrimFacts(line);
    CutFacts(trim);
    TrimFacts(k);
    TrimFacts(v);
    forall c | c in k || c in v ensures c in line {
      assert c in trim;
    }
    CarrierEntry(line, Entry(line).value.0);
  }

  lemma {:induction false} UserValueIsWritable(lines: seq<string>, d: string)
    requires IsUserFile(lines) && AreLines(lines)
    ensures forall v :: v in History(lines, "", d) ==> Writable(d, v)
  {
    if lines != [] {
      var before, x := lines[..|lines| - 1], lines[|lines| - 1];
      UserValueIsWritable(before, d);
      if ValueOf(x, TableAfter(before, ""), d) != [] {
        UserTable(before);
        EntryIsClean(x);
        SplitDotted(TableAfter(before, ""), Entry(x).value.0);
      }
    }
  }

  // -------------------------------------------------------------------- merge

  /** The histories after the keys in `done` are merged. */
  ghost predicate IsMerged(own: seq<string>, values: map<string, string>, done: set<string>, after: seq<string>) {
    && WellFormed(after)
    && forall d :: History(after, "", d) ==
         if d in done && d in values then [values[d]] + Tail(History(own, "", d)) else History(own, "", d)
  }

  lemma {:induction false} MergedNext(own: seq<string>, values: map<string, string>, done: set<string>,
                                      out: seq<string>, d: string, after: seq<string>)
    requires IsMerged(own, values, done, out) && d !in done && d in values && IsSet(out, d, values[d], after)
    ensures IsMerged(own, values, done + {d}, after)
  {
  }

  /** The values of a user file can be written into any file. */
  lemma {:induction false} UserValues(user: string, values: map<string, string>)
    requires IsUserFile(Split(user)) && Means(Split(user), values)
    ensures forall d :: d in values ==> Writable(d, values[d])
  {
    SplitGivesLines(user);
    forall d | d in values ensures Writable(d, values[d]) {
      MeansAt(Split(user), values, d);
      UserValueIsWritable(Split(user), d);
      var h := History(Split(user), "", d);
      assert h[|h| - 1] in h;
    }
  }

  ghost predicate CanMerge(own: string, values: map<string, string>) {
    WellFormed(Split(own)) && forall d :: d in values ==> Writable(d, values[d])
  }

  ghost predicate Merging(own: string, values: map<string, string>, done: set<string>, s: string) {
    CanMerge(own, values) ==> IsMerged(Split(own), values, done, Split(s))
  }

  /** What MergeKeys promises: each key that the user file holds, that `keys` names or
      that there is no such list for, and that `skip` does not name, has the value of the
      user file first. Every other key keeps its own values. */
  ghost predicate MergesUser(own: seq<string>, user: seq<string>, keys: Option<seq<string>>, skip: seq<string>,
                             after: seq<string>) {
    && WellFormed(after)
    && forall d :: History(after, "", d) ==
         var theirs := History(user, "", d);
         if theirs != [] && (keys == None || d in keys.value) && d !in skip
         then [theirs[|theirs| - 1]] + Tail(History(own, "", d))
         else History(own, "", d)
  }

  method MergeKeys(own: string, user: string, keys: Option<seq<string>>, skip: seq<string>) returns (r: string)
    ensures WellFormed(Split(own)) && IsUserFile(Split(user)) ==>
      MergesUser(Split(own), Split(user), keys, skip, Split(r))
  {
    var values := TomlValues(user);
    r := MergeValues(own, values, keys, skip);
    if WellFormed(Split(own)) && IsUserFile(Split(user)) {
      UserValues(user, values);
      var copied := set d | d in values && (keys == None || d in keys.value) && d !in skip;
      forall d ensures History(Split(r), "", d) ==
        if d in copied then [values[d]] + Tail(History(Split(own), "", d)) else History(Split(own), "", d)
      {
        MergedHistory(Split(own), values, copied, Split(r), d);
      }
      CopiedAreTheirs(Split(own), Split(user), values, keys, skip, Split(r));
    }
  }

  lemma {:induction false} CopiedAreTheirs(own: seq<string>, user: seq<string>, values: map<string, string>,
                                           keys: Option<seq<string>>, skip: seq<string>, after: seq<string>)
    requires Means(user, values) && WellFormed(after)
    requires forall d :: (History(after, "", d) ==
      if d in values && (keys == None || d in keys.value) && d !in skip
      then [values[d]] + Tail(History(own, "", d)) else History(own, "", d))
    ensures MergesUser(own, user, keys, skip, after)
  {
    forall d ensures History(user, "", d) != [] <==> d in values
      ensures d in values ==> values[d] == History(user, "", d)[|History(user, "", d)| - 1]
    {
      MeansAt(user, values, d);
    }
  }

  /** The loop of MergeKeys, in any order of the keys. No list of keys at all means every
      key. */
  method MergeValues(own: string, values: map<string, string>, keys: Option<seq<string>>, skip: seq<string>)
    returns (r: string)
    ensures Merging(own, values, (set d | d in values && (keys == None || d in keys.value) && d !in skip), r)
  {
    r := own;
    var todo := values.Keys;
    ghost var done: set<string> := {};
    while todo != {}
      invariant todo <= values.Keys
      invariant forall d :: d in done <==> d in values && d !in todo && (keys == None || d in keys.value) && d !in skip
      invariant Merging(own, values, done, r)
    {
      var d :| d in todo;
      todo := todo - {d};
      if (keys == None || d in keys.value) && d !in skip {
        r := MergeOne(own, values, done, r, d);
        done := done + {d};
      }
    }
    assert done == set d | d in values && (keys == None || d in keys.value) && d !in skip;
  }

  method MergeOne(ghost own: string, values: map<string, string>, ghost done: set<string>, s: string, d: string)
    returns (r: string)
    requires d in values && d !in done && Merging(own, values, done, s)
    ensures Merging(own, values, done + {d}, r)
  {
    r := SetRaw(s, d, values[d]);
    if CanMerge(own, values) {
      MergedNext(Split(own), values, done, Split(s), d, Split(r));
    }
  }

  /** The merged file means the own map overlaid with the user map, as far as `keys` and
      `skip` let it through, exactly when each of those keys had at most one value of
      its own, or already the user's as its last. */
  lemma {:induction false} MergeIsOverlayIff(own: seq<string>, user: seq<string>, keys: Option<seq<string>>,
                                             skip: seq<string>, after: seq<string>, mine: map<string, string>,
                                             theirs: map<string, string>, now: map<string, string>)
    requires MergesUser(own, user, keys, skip, after)
    requires Means(own, mine) && Means(user, theirs) && Means(after, now)
    ensures now == mine + (map d | d in theirs && (keys == None || d in keys.value) && d !in skip :: theirs[d]) <==>
      forall d :: d in theirs && (keys == None || d in keys.value) && d !in skip ==>
        |History(own, "", d)| <= 1 || Lookup(mine, d) == Some(theirs[d])
  {
    var overlay := mine + map d | d in theirs && (keys == None || d in keys.value) && d !in skip :: theirs[d];
    forall d
      ensures d in theirs && (keys == None || d in keys.value) && d !in skip ==>
        (Lookup(now, d) == Lookup(overlay, d) <==> |History(own, "", d)| <= 1 || Lookup(mine, d) == Some(theirs[d]))
      ensures !(d in theirs && (keys == None || d in keys.value) && d !in skip) ==> Lookup(now, d) == Lookup(overlay, d)
    {
      LookupMerged(own, user, keys, skip, after, mine, theirs, now, d);
    }
    if forall d :: Lookup(now, d) == Lookup(overlay, d) {
      SameMap(now, overlay);
    }
  }

  lemma {:induction false} LookupMerged(own: seq<string>, user: seq<string>, keys: Option<seq<string>>,
                                        skip: seq<string>, after: seq<string>, mine: map<string, string>,
                                        theirs: map<string, string>, now: map<string, string>, d: string)
    requires MergesUser(own, user, keys, skip, after)
    requires Means(own, mine) && Means(user, theirs) && Means(after, now)
    ensures !(d in theirs && (keys == None || d in keys.value) && d !in skip) ==> Lookup(now, d) == Lookup(mine, d)
    ensures d in theirs && (keys == None || d in keys.value) && d !in skip ==>
      (Lookup(now, d) == Some(theirs[d]) <==> |History(own, "", d)| <= 1 || Lookup(mine, d) == Some(theirs[d]))
  {
    var h, t := History(own, "", d), History(user, "", d);
    MergedAt(own, user, keys, skip, after, d);
    LookupIs(own, mine, d);
    LookupIs(user, theirs, d);
    LookupIs(after, now, d);
    if t != [] {
      LastAfterSet(h, t[|t| - 1]);
    }
  }

  lemma {:induction false} LookupIs(lines: seq<string>, values: map<string, string>, d: string)
    requires Means(lines, values)
    ensures Lookup(values, d) == Last(History(lines, "", d)) && (d in values <==> History(lines, "", d) != [])
  {
    MeansAt(lines, values, d);
  }

  lemma {:induction false} MergedAt(own: seq<string>, user: seq<string>, keys: Option<seq<string>>,
                                    skip: seq<string>, after: seq<string>, d: string)
    requires MergesUser(own, user, keys, skip, after)
    ensures var theirs := History(user, "", d);
      History(after, "", d) ==
        if theirs != [] && (keys == None || d in keys.value) && d !in skip
        then [theirs[|theirs| - 1]] + Tail(History(own, "", d))
        else History(own, "", d)
  {
  }

  lemma {:induction false} MergedHistory(own: seq<string>, values: map<string, string>, done: set<string>,
                                         after: seq<string>, d: string)
    requires IsMerged(own, values, done, after)
    ensures History(after, "", d) ==
      if d in done && d in values then [values[d]] + Tail(History(own, "", d)) else History(own, "", d)
  {
  }

  // --------------------------------------------------------------------- drop

  function DropFirst(values: seq<string>, n: nat): seq<string> {
    if n <= |values| then values[n..] else []
  }

  /** What is left of the values of a key that is dropped n times, where `first` of them
      stand in the first copy of its table. */
  function Left(values: seq<string>, first: seq<string>, n: nat): seq<string> {
    DropFirst(values, if n < |first| then n else |first|)
  }

  /** The histories after some keys are dropped, each as often as it is listed. */
  ghost predicate IsDropped(before: seq<string>, keys: seq<string>, after: seq<string>) {
    && WellFormed(after)
    && (forall t :: Headers(after, t) == Headers(before, t))
    && (forall d :: LeftAt(before, d, multiset(keys)[d], after))
  }

  ghost predicate LeftAt(before: seq<string>, d: string, n: nat, after: seq<string>) {
    && History(after, "", d) == Left(History(before, "", d), FirstValues(before, d), n)
    && FirstValues(after, d) == DropFirst(FirstValues(before, d), n)
  }

  lemma {:induction false} DroppedNext(before: seq<string>, keys: seq<string>, out: seq<string>, d: string,
                                       after: seq<string>)
    requires IsDropped(before, keys, out) && IsRemoved(out, d, after)
    ensures IsDropped(before, keys + [d], after)
  {
    forall d' ensures LeftAt(before, d', multiset(keys + [d])[d'], after) {
      LeftNext(before, d', multiset(keys)[d'], out, d, after);
      OneMoreKey(keys, d, d');
    }
  }

  lemma {:induction false} OneMoreKey(keys: seq<string>, d: string, d': string)
    ensures multiset(keys + [d])[d'] == multiset(keys)[d'] + if d' == d then 1 else 0
  {
  }

  lemma {:induction false} LeftNext(before: seq<string>, d': string, n: nat, out: seq<string>, d: string, after: seq<string>)
    requires LeftAt(before, d', n, out) && IsRemoved(out, d, after)
    ensures LeftAt(before, d', if d' == d then n + 1 else n, after)
  {
    RemovedHistory(out, d, after, d');
    FirstIsPrefix(before, d');
    DropOneMore(History(before, "", d'), FirstValues(before, d'), n);
  }

  lemma {:induction false} DropOneMore(values: seq<string>, first: seq<string>, n: nat)
    requires |first| <= |values|
    ensures DropFirst(first, n + 1) == Tail(DropFirst(first, n))
    ensures Left(values, first, n + 1) ==
      if DropFirst(first, n) != [] then Tail(Left(values, first, n)) else Left(values, first, n)
  {
  }

  lemma {:induction false} RemovedHistory(before: seq<string>, d: string, after: seq<string>, d': string)
    requires IsRemoved(before, d, after)
    ensures History(after, "", d') ==
      if d' == d && FirstValues(before, d) != [] then Tail(History(before, "", d')) else History(before, "", d')
    ensures FirstValues(after, d') == if d' == d then Tail(FirstValues(before, d')) else FirstValues(before, d')
  {
  }

  lemma {:induction false} DroppedHistory(before: seq<string>, keys: seq<string>, after: seq<string>, d: string)
    requires IsDropped(before, keys, after)
    ensures History(after, "", d) == Left(History(before, "", d), FirstValues(before, d), multiset(keys)[d])
  {
    assert LeftAt(before, d, multiset(keys)[d], after);
  }

  ghost predicate Dropping(data: string, keys: seq<string>, s: string) {
    WellFormed(Split(data)) && (forall k :: k in keys ==> Canonical(k)) ==> IsDropped(Split(data), keys, Split(s))
  }

  method DropKeys(data: string, keys: seq<string>) returns (r: string)
    ensures Dropping(data, keys, r)
  {
    r := data;
    for i := 0 to |keys|
      invariant Dropping(data, keys[..i], r)
    {
      assert keys[..i + 1] == keys[..i] + [keys[i]];
      r := DropOne(data, keys[..i], r, keys[i]);
    }
    assert keys[..|keys|] == keys;
  }

  method DropOne(ghost data: string, ghost keys: seq<string>, s: string, d: string) returns (r: string)
    requires Dropping(data, keys, s)
    ensures Dropping(data, keys + [d], r)
  {
    r := RemoveKey(s, d);
    if WellFormed(Split(data)) && forall k :: k in keys + [d] ==> Canonical(k) {
      assert forall k :: k in keys ==> k in keys + [d];
      assert d in keys + [d];
      DroppedNext(Split(data), keys, Split(s), d, Split(r));
    }
  }

  /** Dropping keys takes them from the map exactly when for each of them every value
      stands in the first copy of its table, and it is listed at least as often as the
      file gives it a value. */
  lemma {:induction false} DropIsMinusIff(before: seq<string>, keys: seq<string>, after: seq<string>,
                                          values: map<string, string>, now: map<string, string>)
    requires IsDropped(before, keys, after) && Means(before, values) && Means(after, now)
    ensures now == values - (set k | k in keys) <==>
      forall k :: k in keys ==>
        FirstValues(before, k) == History(before, "", k) && |History(before, "", k)| <= multiset(keys)[k]
  {
    var less := values - set k | k in keys;
    forall d
      ensures d !in keys ==> Lookup(now, d) == Lookup(less, d)
      ensures d in keys ==> (Lookup(now, d) == Lookup(less, d) <==>
        FirstValues(before, d) == History(before, "", d) && |History(before, "", d)| <= multiset(keys)[d])
    {
      MeansAt(before, values, d);
      MeansAt(after, now, d);
      DroppedHistory(before, keys, after, d);
      FirstIsPrefix(before, d);
      NothingLeftIff(History(before, "", d), FirstValues(before, d), multiset(keys)[d]);
    }
    if forall d :: Lookup(now, d) == Lookup(less, d) {
      SameMap(now, less);
    }
  }

  lemma {:induction false} NothingLeftIff(values: seq<string>, first: seq<string>, n: nat)
    requires first <= values
    ensures Left(values, first, n) == [] <==> first == values && |values| <= n
    ensures Left(values, first, 0) == values
  {
  }
}
