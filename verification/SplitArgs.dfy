/** SplitArgs of args.go: a command line is split into words by the quoting rules
    of the POSIX shell, minus expansion. */
module SplitArgs {
  import opened Collections

  /** The quote that is open: none, single, double. */
  datatype Quote = Bare | Single | Double

  predicate IsDoubleQuoteEscapable(c: char) {
    c in {'"', '\\', '$', '`', '\n'}
  }

  predicate IsBlank(c: char) {
    c in {' ', '\t', '\n'}
  }

  // -------------------------------------------------------------- the automaton

  /** The variables of the loop, apart from the index. */
  datatype State = State(out: seq<string>, cur: string, started: bool, quote: Quote)

  const START := State([], "", false, Bare)

  function Flush(s: State): State {
    if s.started then s.(out := s.out + [s.cur], cur := "", started := false) else s
  }

  function Write(s: State, c: char): State {
    s.(cur := s.cur + [c])
  }

  /** What the loop does from state s with the rest of the command. */
  function Run(s: State, rest: string): State
    decreases |rest|
  {
    if rest == "" then s
    else
      var c := rest[0];
      var escapes := c == '\\' && |rest| > 1;
      match s.quote
      case Single =>
        Run(if c == '\'' then s.(quote := Bare) else Write(s, c), rest[1..])
      case Double =>
        if c == '"' then Run(s.(quote := Bare), rest[1..])
        else if escapes && IsDoubleQuoteEscapable(rest[1]) then Run(Write(s, rest[1]), rest[2..])
        else Run(Write(s, c), rest[1..])
      case Bare =>
        if c == '\'' then Run(s.(quote := Single, started := true), rest[1..])
        else if c == '"' then Run(s.(quote := Double, started := true), rest[1..])
        else if escapes then Run(Write(s, rest[1]).(started := true), rest[2..])
        else if c == '\\' then Run(Write(s, c), rest[1..])
        else if IsBlank(c) then Run(Flush(s), rest[1..])
        else Run(Write(s, c).(started := true), rest[1..])
  }

  function Words(command: string): seq<string> {
    Flush(Run(START, command)).out
  }

  method Split(command: string) returns (out: seq<string>)
    ensures out == Words(command)
  {
    out := [];
    var cur, started, quote := "", false, Bare;
    var i := 0;
    while i < |command|
      invariant 0 <= i <= |command|
      invariant Run(START, command) == Run(State(out, cur, started, quote), command[i..])
    {
      var c := command[i];
      var more := i + 1 < |command|;
      assert command[i..][1..] == command[i + 1..];
      assert more ==> command[i..][2..] == command[i + 2..];
      if quote == Single {
        if c == '\'' {
          quote := Bare;
        } else {
          cur := cur + [c];
        }
      } else if quote == Double {
        if c == '"' {
          quote := Bare;
        } else if c == '\\' && more && IsDoubleQuoteEscapable(command[i + 1]) {
          i := i + 1;
          cur := cur + [command[i]];
        } else {
          cur := cur + [c];
        }
      } else if c == '\'' || c == '"' {
        quote := if c == '"' then Double else Single;
        started := true;
      } else if c == '\\' {
        if more {
          i := i + 1;
          cur := cur + [command[i]];
          started := true;
        } else {
          cur := cur + [c];
        }
      } else if IsBlank(c) {
        if started {
          out, cur, started := out + [cur], "", false;
        }
      } else {
        cur := cur + [c];
        started := true;
      }
      i := i + 1;
    }
    if started {
      out := out + [cur];
    }
  }

  // ---------------------------------------------------------------- the grammar

  /** What may stand between double quotes: a character as it is, one of five characters
      behind a backslash, or a backslash that is kept before any other one. */
  datatype Inner = Raw(c: char) | EscapedInner(c: char) | KeptBackslash(c: char)

  predicate ValidInner(i: Inner) {
    match i
    case Raw(c) => c !in {'"', '\\'}
    case EscapedInner(c) => c in {'"', '\\', '$', '`', '\n'}
    case KeptBackslash(c) => c !in {'"', '\\', '$', '`', '\n'}
  }

  function WrittenOne(i: Inner): string {
    if i.Raw? then [i.c] else ['\\', i.c]
  }

  function MeantOne(i: Inner): string {
    if i.KeptBackslash? then ['\\', i.c] else [i.c]
  }

  function WrittenInner(items: seq<Inner>): string {
    if items == [] then "" else WrittenOne(items[0]) + WrittenInner(items[1..])
  }

  function MeantInner(items: seq<Inner>): string {
    if items == [] then "" else MeantOne(items[0]) + MeantInner(items[1..])
  }

  /** One piece of a word: a plain character, a backslash and a character, a
      single-quoted text, a double-quoted text with each of the five characters
      escaped, and any other way to write one. */
  datatype Piece =
    | Plain(c: char)
    | Escaped(c: char)
    | SingleQuoted(text: string)
    | DoubleQuoted(text: string)
    | DoubleMixed(items: seq<Inner>)

  predicate ValidPiece(p: Piece) {
    match p
    case Plain(c) => c !in {' ', '\t', '\n', '\'', '"', '\\'}
    case Escaped(_) => true
    case SingleQuoted(text) => '\'' !in text
    case DoubleQuoted(_) => true
    case DoubleMixed(items) => forall i :: 0 <= i < |items| ==> ValidInner(items[i])
  }

  /** A text between double quotes, with a backslash before each character that
      needs one. */
  function EscapeDouble(text: string): string {
    if text == "" then ""
    else (if text[0] in {'"', '\\', '$', '`', '\n'} then ['\\', text[0]] else [text[0]]) + EscapeDouble(text[1..])
  }

  function Written(p: Piece): string {
    match p
    case Plain(c) => [c]
    case Escaped(c) => ['\\', c]
    case SingleQuoted(text) => "'" + text + "'"
    case DoubleQuoted(text) => "\"" + EscapeDouble(text) + "\""
    case DoubleMixed(items) => "\"" + WrittenInner(items) + "\""
  }

  function Meant(p: Piece): string {
    match p
    case Plain(c) => [c]
    case Escaped(c) => [c]
    case SingleQuoted(text) => text
    case DoubleQuoted(text) => text
    case DoubleMixed(items) => MeantInner(items)
  }

  /** A word is written as one or more pieces with nothing in between. */
  type Word = seq<Piece>

  predicate ValidWord(w: Word) {
    w != [] && forall i :: 0 <= i < |w| ==> ValidPiece(w[i])
  }

  function WrittenWord(w: Word): string {
    if w == [] then "" else Written(w[0]) + WrittenWord(w[1..])
  }

  function MeantWord(w: Word): string {
    if w == [] then "" else Meant(w[0]) + MeantWord(w[1..])
  }

  /** A command line: blanks, and then words, each followed by blanks. */
  datatype Item = Item(word: Word, blanks: string)

  predicate AllBlank(s: string) {
    forall i :: 0 <= i < |s| ==> s[i] in {' ', '\t', '\n'}
  }

  /** Only the last word may go without blanks after it. */
  ghost predicate ValidLine(items: seq<Item>) {
    && (forall i :: 0 <= i < |items| ==> ValidWord(items[i].word) && AllBlank(items[i].blanks))
    && (forall i :: 0 <= i < |items| - 1 ==> items[i].blanks != "")
  }

  function WrittenLine(items: seq<Item>): string {
    if items == [] then ""
    else WrittenWord(items[0].word) + items[0].blanks + WrittenLine(items[1..])
  }

  function MeantLine(items: seq<Item>): seq<string> {
    if items == [] then [] else [MeantWord(items[0].word)] + MeantLine(items[1..])
  }

  // ------------------------------------------------------------------- proofs

  lemma {:induction false} RunSingle(s: State, text: string, rest: string)
    requires s.quote == Single && '\'' !in text
    ensures Run(s, text + "'" + rest) == Run(s.(cur := s.cur + text, quote := Bare), rest)
    decreases |text|
  {
    var all := text + "'" + rest;
    if text == "" {
      assert all[0] == '\'' && all[1..] == rest && s.cur + text == s.cur;
    } else {
      assert all[0] == text[0] && all[1..] == text[1..] + "'" + rest;
      RunSingle(Write(s, text[0]), text[1..], rest);
      assert s.cur + [text[0]] + text[1..] == s.cur + text;
    }
  }

  lemma {:induction false} RunDouble(s: State, text: string, rest: string)
    requires s.quote == Double
    ensures Run(s, EscapeDouble(text) + "\"" + rest) == Run(s.(cur := s.cur + text, quote := Bare), rest)
    decreases |text|
  {
    var all := EscapeDouble(text) + "\"" + rest;
    if text == "" {
      assert all[0] == '"' && all[1..] == rest && s.cur + text == s.cur;
    } else {
      var c, next := text[0], EscapeDouble(text[1..]) + "\"" + rest;
      if IsDoubleQuoteEscapable(c) {
        assert all[0] == '\\' && all[1] == c && all[2..] == next;
      } else {
        assert all[0] == c && all[1..] == next;
      }
      RunDouble(Write(s, c), text[1..], rest);
      assert s.cur + [c] + text[1..] == s.cur + text;
    }
  }

  lemma {:induction false} RunOneInner(s: State, i: Inner, next: string)
    requires s.quote == Double && ValidInner(i)
    ensures Run(s, WrittenOne(i) + next) == Run(s.(cur := s.cur + MeantOne(i)), next)
  {
    var all := WrittenOne(i) + next;
    if i.Raw? {
      assert all[1..] == next;
    } else if i.EscapedInner? {
      assert all[2..] == next;
    } else {
      assert all[1..] == [i.c] + next && all[1..][1..] == next;
      assert s.cur + ['\\'] + [i.c] == s.cur + MeantOne(i);
    }
  }

  lemma {:induction false} RunInner(s: State, items: seq<Inner>, rest: string)
    requires s.quote == Double && forall i :: 0 <= i < |items| ==> ValidInner(items[i])
    ensures Run(s, WrittenInner(items) + "\"" + rest) == Run(s.(cur := s.cur + MeantInner(items), quote := Bare), rest)
    decreases |items|
  {
    if items == [] {
      var all := WrittenInner(items) + "\"" + rest;
      assert all[0] == '"' && all[1..] == rest && s.cur + MeantInner(items) == s.cur;
    } else {
      var one, tail := items[0], items[1..];
      assert WrittenInner(items) + "\"" + rest == WrittenOne(one) + (WrittenInner(tail) + "\"" + rest);
      RunOneInner(s, one, WrittenInner(tail) + "\"" + rest);
      RunInner(s.(cur := s.cur + MeantOne(one)), tail, rest);
      SumAssociates(s.cur, MeantOne(one), MeantInner(tail));
    }
  }

  lemma {:induction false} RunQuote(s: State, quote: char, text: string, rest: string)
    requires s.quote == Bare && quote in {'\'', '"'}
    ensures Run(s, [quote] + text + [quote] + rest)
      == Run(s.(quote := if quote == '"' then Double else Single, started := true), text + [quote] + rest)
  {
    var all := [quote] + text + [quote] + rest;
    assert all[0] == quote && all[1..] == text + [quote] + rest;
  }

  lemma {:induction false} RunPiece(s: State, p: Piece, rest: string)
    requires s.quote == Bare && ValidPiece(p)
    ensures Run(s, Written(p) + rest) == Run(s.(cur := s.cur + Meant(p), started := true), rest)
  {
    match p
    case Plain(c) =>
      assert ([c] + rest)[1..] == rest;
    case Escaped(c) =>
      assert (['\\', c] + rest)[2..] == rest;
    case SingleQuoted(text) =>
      RunQuote(s, '\'', text, rest);
      RunSingle(s.(quote := Single, started := true), text, rest);
    case DoubleQuoted(text) =>
      RunQuote(s, '"', EscapeDouble(text), rest);
      RunDouble(s.(quote := Double, started := true), text, rest);
    case DoubleMixed(items) =>
      RunQuote(s, '"', WrittenInner(items), rest);
      RunInner(s.(quote := Double, started := true), items, rest);
  }

  lemma {:induction false} RunWord(s: State, w: Word, rest: string)
    requires s.quote == Bare && ValidWord(w)
    ensures Run(s, WrittenWord(w) + rest) == Run(s.(cur := s.cur + MeantWord(w), started := true), rest)
    decreases |w|
  {
    SumAssociates(Written(w[0]), WrittenWord(w[1..]), rest);
    RunPiece(s, w[0], WrittenWord(w[1..]) + rest);
    if |w| == 1 {
      assert "" + rest == rest && Meant(w[0]) + "" == Meant(w[0]);
    } else {
      RunWord(s.(cur := s.cur + Meant(w[0]), started := true), w[1..], rest);
      SumAssociates(s.cur, Meant(w[0]), MeantWord(w[1..]));
    }
  }

  lemma {:induction false} RunBlanks(s: State, blanks: string, rest: string)
    requires s.quote == Bare && AllBlank(blanks)
    ensures Run(s, blanks + rest) == Run(if blanks == "" then s else Flush(s), rest)
    decreases |blanks|
  {
    if blanks == "" {
      assert blanks + rest == rest;
    } else {
      assert (blanks + rest)[0] == blanks[0] && (blanks + rest)[1..] == blanks[1..] + rest;
      RunBlanks(Flush(s), blanks[1..], rest);
    }
  }

  lemma {:induction false} RunItem(out: seq<string>, item: Item, rest: string)
    requires ValidWord(item.word) && AllBlank(item.blanks) && (item.blanks == "" ==> rest == "")
    ensures Flush(Run(State(out, "", false, Bare), WrittenWord(item.word) + item.blanks + rest))
      == Flush(Run(State(out + [MeantWord(item.word)], "", false, Bare), rest))
  {
    var s, word := State(out, "", false, Bare), MeantWord(item.word);
    SumAssociates(WrittenWord(item.word), item.blanks, rest);
    RunWord(s, item.word, item.blanks + rest);
    assert "" + word == word;
    RunBlanks(State(out, word, true, Bare), item.blanks, rest);
  }

  lemma {:induction false} RunLine(out: seq<string>, items: seq<Item>)
    requires ValidLine(items)
    ensures Flush(Run(State(out, "", false, Bare), WrittenLine(items))).out == out + MeantLine(items)
    decreases |items|
  {
    if items != [] {
      RunItem(out, items[0], WrittenLine(items[1..]));
      RunLine(out + [MeantWord(items[0].word)], items[1..]);
      SumAssociates(out, [MeantWord(items[0].word)], MeantLine(items[1..]));
    }
  }

  // ----------------------------------------------------------------- theorems

  /** Splitting a command line gives back the words it was written for, in order,
      empty ones included, whatever mixture of plain characters, escapes and
      quotes each word is written with, and whatever blanks lie between. */
  lemma {:induction false} SplitsWhatWasWritten(leading: string, items: seq<Item>)
    requires AllBlank(leading) && ValidLine(items)
    ensures Words(leading + WrittenLine(items)) == MeantLine(items)
  {
    RunBlanks(START, leading, WrittenLine(items));
    RunLine([], items);
    assert [] + MeantLine(items) == MeantLine(items);
  }

  function QuotedPiece(word: string, double: bool): Piece {
    if double then DoubleQuoted(word) else SingleQuoted(word)
  }

  /** Words joined with blanks, each in quotes of the given kind. */
  function Quoted(words: seq<string>, double: bool): string {
    if words == [] then ""
    else
      Written(QuotedPiece(words[0], double)) + (if |words| == 1 then "" else " ") + Quoted(words[1..], double)
  }

  function QuotedItem(word: string, double: bool, last: bool): Item {
    Item([QuotedPiece(word, double)], if last then "" else " ")
  }

  function QuotedItems(words: seq<string>, double: bool): seq<Item> {
    if words == [] then [] else [QuotedItem(words[0], double, |words| == 1)] + QuotedItems(words[1..], double)
  }

  lemma {:induction false} OnePiece(p: Piece)
    ensures WrittenWord([p]) == Written(p) && MeantWord([p]) == Meant(p)
  {
    assert Written(p) + "" == Written(p) && Meant(p) + "" == Meant(p);
  }

  lemma {:induction false} ItemsNext(item: Item, items: seq<Item>)
    ensures ([item] + items)[1..] == items
    ensures ValidWord(item.word) && AllBlank(item.blanks) && ValidLine(items) && (items == [] || item.blanks != "")
      ==> ValidLine([item] + items)
    ensures WrittenLine([item] + items) == WrittenWord(item.word) + item.blanks + WrittenLine(items)
    ensures MeantLine([item] + items) == [MeantWord(item.word)] + MeantLine(items)
  {
  }

  lemma {:induction false} QuotedItemsFit(words: seq<string>, double: bool)
    requires double || forall i :: 0 <= i < |words| ==> '\'' !in words[i]
    ensures ValidLine(QuotedItems(words, double)) && |QuotedItems(words, double)| == |words|
    ensures WrittenLine(QuotedItems(words, double)) == Quoted(words, double)
    ensures MeantLine(QuotedItems(words, double)) == words
    decreases |words|
  {
    if words != [] {
      var item := QuotedItem(words[0], double, |words| == 1);
      QuotedItemFits(words[0], double, |words| == 1);
      QuotedItemsFit(words[1..], double);
      ItemsNext(item, QuotedItems(words[1..], double));
      QuotedNext(words, double);
      assert words == [words[0]] + words[1..];
    }
  }

  lemma {:induction false} QuotedNext(words: seq<string>, double: bool)
    requires words != []
    ensures Quoted(words, double) ==
      Written(QuotedPiece(words[0], double)) + QuotedItem(words[0], double, |words| == 1).blanks + Quoted(words[1..], double)
    ensures QuotedItems(words, double) == [QuotedItem(words[0], double, |words| == 1)] + QuotedItems(words[1..], double)
    ensures QuotedItems(words[1..], double) == [] <==> |words| == 1
  {
  }

  /** One quoted word as an item. */
  lemma {:induction false} QuotedItemFits(word: string, double: bool, last: bool)
    requires double || '\'' !in word
    ensures var item := QuotedItem(word, double, last);
      && ValidWord(item.word) && AllBlank(item.blanks) && MeantWord(item.word) == word
      && WrittenWord(item.word) == Written(QuotedPiece(word, double))
  {
    OnePiece(QuotedPiece(word, double));
    assert ValidWord([QuotedPiece(word, double)]);
  }

  /** The round trip: any list of words survives double quotes with escapes. */
  lemma {:induction false} DoubleQuotesRoundTrip(words: seq<string>)
    ensures Words(Quoted(words, true)) == words
  {
    QuotedItemsFit(words, true);
    RunLine([], QuotedItems(words, true));
    assert [] + words == words;
  }

  /** Words without a single quote survive single quotes as they are. */
  lemma {:induction false} SingleQuotesRoundTrip(words: seq<string>)
    requires forall i :: 0 <= i < |words| ==> '\'' !in words[i]
    ensures Words(Quoted(words, false)) == words
  {
    QuotedItemsFit(words, false);
    RunLine([], QuotedItems(words, false));
    assert [] + words == words;
  }

  // ------------------------------------------------------- unfinished commands

  /** A line in which blanks follow every word, so that a new word can start. */
  ghost predicate ClosedLine(items: seq<Item>) {
    forall i :: 0 <= i < |items| ==>
      ValidWord(items[i].word) && AllBlank(items[i].blanks) && items[i].blanks != ""
  }

  lemma {:induction false} RunClosed(out: seq<string>, items: seq<Item>, rest: string)
    requires ClosedLine(items)
    ensures Run(State(out, "", false, Bare), WrittenLine(items) + rest)
      == Run(State(out + MeantLine(items), "", false, Bare), rest)
    decreases |items|
  {
    if items == [] {
      assert WrittenLine(items) + rest == rest && out + MeantLine(items) == out;
    } else {
      var item, tail := items[0], WrittenLine(items[1..]) + rest;
      var word := MeantWord(item.word);
      SumAssociates(WrittenWord(item.word) + item.blanks, WrittenLine(items[1..]), rest);
      SumAssociates(WrittenWord(item.word), item.blanks, tail);
      RunWord(State(out, "", false, Bare), item.word, item.blanks + tail);
      assert "" + word == word;
      RunBlanks(State(out, word, true, Bare), item.blanks, tail);
      RunClosed(out + [word], items[1..], rest);
      SumAssociates(out, [word], MeantLine(items[1..]));
    }
  }

  /** A quote that is never closed keeps the rest of the command as one word. */
  lemma {:induction false} OpenQuoteKeepsTheRest(items: seq<Item>, text: string)
    requires ClosedLine(items)
    ensures Words(WrittenLine(items) + ("\"" + EscapeDouble(text))) == MeantLine(items) + [text]
    ensures '\'' !in text ==> Words(WrittenLine(items) + ("'" + text)) == MeantLine(items) + [text]
  {
    RunClosed([], items, "\"" + EscapeDouble(text));
    RunClosed([], items, "'" + text);
    var out := [] + MeantLine(items);
    assert out == MeantLine(items);
    assert ("\"" + EscapeDouble(text))[1..] == EscapeDouble(text) && ("'" + text)[1..] == text;
    OpenDouble(State(out, "", true, Double), text);
    if '\'' !in text {
      OpenSingle(State(out, "", true, Single), text);
    }
    assert "" + text == text;
  }

  lemma {:induction false} OpenDouble(s: State, text: string)
    requires s.quote == Double
    ensures Run(s, EscapeDouble(text)) == s.(cur := s.cur + text)
    decreases |text|
  {
    if text != "" {
      var c, tail, all := text[0], EscapeDouble(text[1..]), EscapeDouble(text);
      if IsDoubleQuoteEscapable(c) {
        assert all == ['\\', c] + tail;
        assert all[2..] == tail;
      } else {
        assert all == [c] + tail;
        assert all[1..] == tail;
      }
      OpenDouble(Write(s, c), text[1..]);
      SumAssociates(s.cur, [c], text[1..]);
      assert [c] + text[1..] == text;
    }
  }

  lemma {:induction false} OpenSingle(s: State, text: string)
    requires s.quote == Single && '\'' !in text
    ensures Run(s, text) == s.(cur := s.cur + text)
    decreases |text|
  {
    if text != "" {
      OpenSingle(Write(s, text[0]), text[1..]);
      assert s.cur + [text[0]] + text[1..] == s.cur + text;
    }
  }

  /** A backslash at the very end is literal if and only if it stands in a word.
      After a blank, or alone, it is lost: it does not start a word. */
  lemma {:induction false} FinalBackslashNeedsAWord(items: seq<Item>, w: Word)
    requires ClosedLine(items) && (w == [] || ValidWord(w))
    ensures Words(WrittenLine(items) + (WrittenWord(w) + "\\"))
      == MeantLine(items) + if w == [] then [] else [MeantWord(w) + "\\"]
  {
    RunClosed([], items, WrittenWord(w) + "\\");
    var out := [] + MeantLine(items);
    assert out == MeantLine(items);
    var s := State(out, "", false, Bare);
    if w == [] {
      assert WrittenWord(w) + "\\" == "\\" && "\\"[1..] == "";
      assert out + [] == out;
    } else {
      RunWord(s, w, "\\");
      assert "" + MeantWord(w) == MeantWord(w) && "\\"[1..] == "";
    }
  }

  /** The rest starts with a backslash and the character that it escapes. */
  predicate Pair(s: State, rest: string) {
    && |rest| > 1 && rest[0] == '\\'
    && (s.quote == Bare || (s.quote == Double && IsDoubleQuoteEscapable(rest[1])))
  }

  /** Whether the loop, from state s, reads the last character as a backslash that
      would escape the next one, if there was one. */
  predicate Hangs(s: State, rest: string)
    decreases |rest|
  {
    if rest == "" then false
    else if rest == "\\" then s.quote != Single
    else
      var n := if Pair(s, rest) then 2 else 1;
      Hangs(Run(s, rest[..n]), rest[n..])
  }

  lemma {:induction false} RunInSteps(s: State, rest: string)
    requires rest != ""
    ensures var n := if Pair(s, rest) then 2 else 1;
      rest != "\\" ==> forall more :: Run(s, rest + more) == Run(Run(s, rest[..n]), rest[n..] + more)
  {
    var n := if Pair(s, rest) then 2 else 1;
    if rest != "\\" {
      forall more ensures Run(s, rest + more) == Run(Run(s, rest[..n]), rest[n..] + more) {
        assert (rest + more)[n..] == rest[n..] + more && rest[..n][n..] == "";
      }
    }
  }

  /** The effect of one more backslash on the variables of the loop. */
  lemma {:induction false} RunBackslash(s: State, rest: string)
    ensures var t := Run(s, rest);
      Run(s, rest + "\\") == if !Hangs(s, rest) then Write(t, '\\') else if t.quote == Bare then t.(started := true) else t
    decreases |rest|
  {
    if rest == "" {
      assert rest + "\\" == "\\" && "\\"[1..] == "";
    } else if rest == "\\" {
      assert rest + "\\" == "\\\\" && "\\\\"[1..] == "\\" && "\\\\"[2..] == "" && "\\"[1..] == "";
    } else {
      var n := if Pair(s, rest) then 2 else 1;
      RunInSteps(s, rest);
      RunBackslash(Run(s, rest[..n]), rest[n..]);
      assert rest + "" == rest && rest[n..] + "" == rest[n..];
    }
  }

  lemma {:induction false} QuotesStart(s: State, rest: string)
    requires s.quote != Bare ==> s.started
    ensures Run(s, rest).quote != Bare ==> Run(s, rest).started
    decreases |rest|
  {
    if rest != "" {
      var c := rest[0];
      if Pair(s, rest) {
        QuotesStart(if s.quote == Bare then Write(s, rest[1]).(started := true) else Write(s, rest[1]), rest[2..]);
      } else if s.quote == Bare && c in {'\'', '"'} {
        QuotesStart(s.(quote := if c == '"' then Double else Single, started := true), rest[1..]);
      } else if s.quote == Bare && IsBlank(c) {
        QuotesStart(Flush(s), rest[1..]);
      } else if s.quote == Bare {
        QuotesStart(if c == '\\' then Write(s, c) else Write(s, c).(started := true), rest[1..]);
      } else if c == (if s.quote == Single then '\'' else '"') {
        QuotesStart(s.(quote := Bare), rest[1..]);
      } else {
        QuotesStart(Write(s, c), rest[1..]);
      }
    }
  }

  /** One more backslash behind any command, inside quotes and outside. Where the one
      before it escapes it, the two are one backslash, and that in a word. Otherwise it
      is kept, at the end of the last word, if and only if a word is open there. */
  lemma {:induction false} FinalBackslashIff(command: string)
    ensures var s := Run(START, command);
      && (Hangs(START, command) ==> Words(command + "\\") == s.out + [s.cur])
      && (!Hangs(START, command) ==> Words(command + "\\") == if s.started then s.out + [s.cur + "\\"] else Words(command))
      && (!Hangs(START, command) ==> (Words(command + "\\") != Words(command) <==> s.started))
  {
    var s := Run(START, command);
    RunBackslash(START, command);
    QuotesStart(START, command);
    if s.started {
      assert (s.out + [s.cur + "\\"])[|s.out|] != (s.out + [s.cur])[|s.out|];
    }
  }
}
