/** The string operations that the TOML editor of home.go is made of: lines,
    white space, and the cut at the first equals sign. */
module TomlText {
  import opened Collections

  /** unicode.IsSpace. */
  predicate IsSpace(c: char) {
    || '\t' <= c <= '\r'
    || c == ' '
    || c in {'\U{85}', '\U{A0}', '\U{1680}', '\U{2028}', '\U{2029}', '\U{202F}', '\U{205F}', '\U{3000}'}
    || '\U{2000}' <= c <= '\U{200A}'
  }

  // --------------------------------------------------------------------- trim

  function TrimLeft(s: string): string {
    if s != "" && IsSpace(s[0]) then TrimLeft(s[1..]) else s
  }

  function TrimRight(s: string): string {
    if s != "" && IsSpace(s[|s| - 1]) then TrimRight(s[..|s| - 1]) else s
  }

  /** strings.TrimSpace. */
  function Trim(s: string): string {
    TrimRight(TrimLeft(s))
  }

  predicate Trimmed(s: string) {
    s != "" ==> !IsSpace(s[0]) && !IsSpace(s[|s| - 1])
  }

  lemma {:induction false} TrimRightFacts(s: string)
    ensures TrimRight(s) <= s
    ensures TrimRight(s) != "" ==> !IsSpace(TrimRight(s)[|TrimRight(s)| - 1])
    decreases |s|
  {
    if s != "" && IsSpace(s[|s| - 1]) {
      TrimRightFacts(s[..|s| - 1]);
    }
  }

  lemma {:induction false} TrimLeftFacts(s: string)
    ensures TrimLeft(s) != "" ==> !IsSpace(TrimLeft(s)[0])
    ensures forall c :: c in TrimLeft(s) ==> c in s
    decreases |s|
  {
    if s != "" && IsSpace(s[0]) {
      TrimLeftFacts(s[1..]);
    }
  }

  lemma {:induction false} TrimFacts(s: string)
    ensures Trimmed(Trim(s))
    ensures forall c :: c in Trim(s) ==> c in s
  {
    TrimLeftFacts(s);
    TrimRightFacts(TrimLeft(s));
  }

  lemma {:induction false} TrimKeepsFirst(s: string)
    requires s != "" && !IsSpace(s[0])
    ensures Trim(s) != "" && Trim(s)[0] == s[0]
    decreases |s|
  {
    if IsSpace(s[|s| - 1]) {
      TrimKeepsFirst(s[..|s| - 1]);
    }
  }

  /** Trimming takes a space off either end of a trimmed string. */
  lemma {:induction false} TrimPadded(s: string)
    requires Trimmed(s)
    ensures Trim(" " + s) == s && Trim(s + " ") == s
  {
    assert (" " + s)[1..] == s;
    assert TrimLeft(" " + s) == TrimLeft(s) == s;
    assert (s + " ")[..|s|] == s;
    assert TrimRight(s + " ") == TrimRight(s) == s;
    if s == "" {
      assert s + " " == " " + s;
    } else {
      assert (s + " ")[0] == s[0];
      assert TrimLeft(s + " ") == s + " ";
    }
  }

  /** Nothing but white space, by the code points. */
  predicate AllSpace(s: string) {
    forall i :: 0 <= i < |s| ==> IsSpaceCode(s[i] as int)
  }

  predicate IsSpaceCode(n: int) {
    9 <= n <= 13 || n in {32, 0x85, 0xA0, 0x1680, 0x2028, 0x2029, 0x202F, 0x205F, 0x3000} || 0x2000 <= n <= 0x200A
  }

  lemma {:induction false} SpaceCodes(c: char)
    ensures IsSpace(c) <==> IsSpaceCode(c as int)
  {
  }

  lemma {:induction false} TrimLeftSkips(a: string, s: string)
    requires AllSpace(a)
    ensures TrimLeft(a + s) == TrimLeft(s)
  {
    if a == "" {
      assert a + s == s;
    } else {
      assert (a + s)[0] == a[0] && (a + s)[1..] == a[1..] + s;
      TrimLeftSkips(a[1..], s);
    }
  }

  lemma {:induction false} TrimRightSkips(s: string, b: string)
    requires AllSpace(b)
    ensures TrimRight(s + b) == TrimRight(s)
  {
    if b == "" {
      assert s + b == s;
    } else {
      var n := |s + b| - 1;
      assert (s + b)[n] == b[|b| - 1] && (s + b)[..n] == s + b[..|b| - 1];
      TrimRightSkips(s, b[..|b| - 1]);
    }
  }

  /** Trimming finds what stands between spaces. */
  lemma {:induction false} TrimFinds(a: string, s: string, b: string)
    requires AllSpace(a) && AllSpace(b) && Trimmed(s)
    ensures Trim(a + s + b) == s
  {
    SumAssociates(a, s, b);
    TrimLeftSkips(a, s + b);
    if s == "" {
      assert s + b == b + "";
      TrimLeftSkips(b, "");
    } else {
      assert (s + b)[0] == s[0];
      TrimRightSkips(s, b);
    }
  }

  // ---------------------------------------------------------------------- cut

  /** strings.Cut at "=". */
  function Cut(s: string): Option<(string, string)> {
    if s == "" then None
    else if s[0] == '=' then Some(("", s[1..]))
    else
      match Cut(s[1..])
      case None => None
      case Some((a, b)) => Some(([s[0]] + a, b))
  }

  lemma {:induction false} CutAt(a: string, b: string)
    requires '=' !in a
    ensures Cut(a + "=" + b) == Some((a, b))
  {
    if a == "" {
      assert (a + "=" + b)[1..] == b;
    } else {
      assert (a + "=" + b)[0] == a[0] && (a + "=" + b)[1..] == a[1..] + "=" + b;
      CutAt(a[1..], b);
      assert [a[0]] + a[1..] == a;
    }
  }

  lemma {:induction false} CutFacts(s: string)
    ensures match Cut(s) case None => '=' !in s case Some((a, b)) => '=' !in a && s == a + "=" + b
  {
    if s != "" && s[0] != '=' {
      CutFacts(s[1..]);
      assert s == [s[0]] + s[1..];
    }
  }

  // -------------------------------------------------------------------- lines

  const NEWLINE := '\n'

  /** strings.Split on newlines. */
  function Split(s: string): (lines: seq<string>)
    ensures lines != []
  {
    if s == "" then [""]
    else
      var tail := Split(s[1..]);
      if s[0] == NEWLINE then [""] + tail else [[s[0]] + tail[0]] + tail[1..]
  }

  /** strings.Join with newlines. */
  function Join(lines: seq<string>): string {
    if lines == [] then ""
    else if |lines| == 1 then lines[0]
    else lines[0] + [NEWLINE] + Join(lines[1..])
  }

  ghost predicate AreLines(lines: seq<string>) {
    forall i :: 0 <= i < |lines| ==> NEWLINE !in lines[i]
  }

  lemma {:induction false} SplitGivesLines(s: string)
    ensures AreLines(Split(s))
  {
    if s != "" {
      SplitGivesLines(s[1..]);
    }
  }

  lemma {:induction false} SplitOne(line: string)
    requires NEWLINE !in line
    ensures Split(line) == [line]
  {
    if line != "" {
      SplitOne(line[1..]);
      assert line == [line[0]] + line[1..];
    }
  }

  /** A character in front of the first line. */
  function Prepend(c: char, lines: seq<string>): seq<string>
    requires lines != []
  {
    if c == NEWLINE then [""] + lines else [[c] + lines[0]] + lines[1..]
  }

  lemma {:induction false} SplitCons(c: char, s: string)
    ensures Split([c] + s) == Prepend(c, Split(s))
  {
    assert ([c] + s)[1..] == s;
  }

  lemma PrependAppend(c: char, a: seq<string>, b: seq<string>)
    requires a != []
    ensures Prepend(c, a + b) == Prepend(c, a) + b
  {
    assert (a + b)[1..] == a[1..] + b;
  }

  lemma {:induction false} SplitTwo(a: string, b: string)
    ensures Split(a + [NEWLINE] + b) == Split(a) + Split(b)
    decreases |a|
  {
    if a == "" {
      assert a + [NEWLINE] + b == [NEWLINE] + b;
      SplitCons(NEWLINE, b);
    } else {
      var rest := a[1..] + [NEWLINE] + b;
      assert a + [NEWLINE] + b == [a[0]] + rest && a == [a[0]] + a[1..];
      SplitTwo(a[1..], b);
      SplitCons(a[0], rest);
      SplitCons(a[0], a[1..]);
      PrependAppend(a[0], Split(a[1..]), Split(b));
    }
  }

  /** Lines survive being joined and split again. */
  lemma {:induction false} SplitJoin(lines: seq<string>)
    requires lines != [] && AreLines(lines)
    ensures Split(Join(lines)) == lines
  {
    SplitOne(lines[0]);
    if |lines| > 1 {
      SplitJoin(lines[1..]);
      SplitTwo(lines[0], Join(lines[1..]));
    }
  }
}
