/** The NDJSON framing of internal/wire/wire.go: readFrame and scan over a
    buffered reader that hands out the byte stream in arbitrary pieces. */
module Framing {
  import opened Collections

  type byte = bv8

  const NEWLINE: byte := 10

  predicate HasNewline(s: seq<byte>) {
    NEWLINE in s
  }

  /** A piece that ends with its only newline. */
  predicate EndsLine(s: seq<byte>) {
    s != [] && s[|s| - 1] == NEWLINE && !HasNewline(s[..|s| - 1])
  }

  // ------------------------------------------------------------------- reader

  /** How ReadSlice ended: at the newline, with a full buffer, at the end of the
      stream, or with the read error that ends it. */
  datatype Ending = AtNewline | BufferFull | AtEof | Broken

  /** The child's output behind the buffered reader. `sizes` stands for where the
      buffer happens to fill up; no contract mentions it, so what is proved
      about a caller holds for every way of cutting the stream. */
  class Reader {
    var rest: seq<byte>
    var sizes: seq<nat>
    const fails: bool

    constructor (stream: seq<byte>, sizes: seq<nat>, fails: bool)
      ensures rest == stream && this.fails == fails
    {
      this.rest, this.sizes, this.fails := stream, sizes, fails;
    }

    method ReadSlice() returns (chunk: seq<byte>, ending: Ending)
      modifies this
      ensures old(rest) == chunk + rest
      ensures ending == AtNewline <==> EndsLine(chunk)
      ensures ending != AtNewline ==> !HasNewline(chunk)
      ensures ending == BufferFull ==> chunk != []
      ensures ending in {AtEof, Broken} ==> rest == [] && (ending == Broken <==> fails)
    {
      var size := if sizes == [] || sizes[0] == 0 then 1 else sizes[0];
      sizes := if sizes == [] then [] else sizes[1..];
      var i := 0;
      while i < |rest| && i < size && rest[i] != NEWLINE
        invariant 0 <= i <= |rest|
        invariant !HasNewline(rest[..i])
      {
        i := i + 1;
      }
      if i == |rest| {
        ending := if fails then Broken else AtEof;
      } else if rest[i] == NEWLINE {
        i := i + 1;
        ending := AtNewline;
      } else {
        ending := BufferFull;
      }
      chunk, rest := rest[..i], rest[i..];
      assert ending == AtNewline ==> chunk[..|chunk| - 1] == old(rest)[..i - 1];
    }
  }

  // -------------------------------------------------------------------- lines

  /** The first line with its newline, or everything when there is none. */
  function FirstLine(s: seq<byte>): (line: seq<byte>)
    ensures line <= s
    ensures s != [] ==> line != []
    ensures if HasNewline(s) then EndsLine(line) else line == s
  {
    if s == [] then []
    else if s[0] == NEWLINE then [s[0]]
    else
      assert s == [s[0]] + s[1..];
      var tail := FirstLine(s[1..]);
      assert EndsLine(tail) ==> ([s[0]] + tail)[..|tail|] == [s[0]] + tail[..|tail| - 1];
      [s[0]] + tail
  }

  lemma {:induction false} FirstLineSkips(piece: seq<byte>, s: seq<byte>)
    requires !HasNewline(piece)
    ensures FirstLine(piece + s) == piece + FirstLine(s)
    ensures HasNewline(piece + s) <==> HasNewline(s)
  {
    if piece == [] {
      assert piece + s == s;
    } else {
      var tail := piece[1..];
      assert piece == [piece[0]] + tail;
      SumAssociates([piece[0]], tail, s);
      FirstLineSkips(tail, s);
      FirstLineCons(piece[0], tail + s);
      SumAssociates([piece[0]], tail, FirstLine(s));
    }
  }

  lemma {:induction false} FirstLineCons(b: byte, s: seq<byte>)
    requires b != NEWLINE
    ensures FirstLine([b] + s) == [b] + FirstLine(s)
  {
    assert ([b] + s)[1..] == s;
  }

  lemma {:induction false} FirstLineStops(piece: seq<byte>, s: seq<byte>)
    requires EndsLine(piece)
    ensures FirstLine(piece + s) == piece
    ensures HasNewline(piece + s)
  {
    var n := |piece| - 1;
    assert piece + s == piece[..n] + ([NEWLINE] + s);
    FirstLineSkips(piece[..n], [NEWLINE] + s);
  }

  // ---------------------------------------------------------------- readFrame

  datatype FrameResult = Frame(line: seq<byte>) | TooLarge | EndOfStream | ReadFailed

  /** What one readFrame makes of the stream before it. */
  function FrameOf(s: seq<byte>, max: nat, fails: bool): FrameResult {
    var line := FirstLine(s);
    if fails && !HasNewline(s) then ReadFailed
    else if line == [] then EndOfStream
    else if |line| > max then TooLarge
    else Frame(line)
  }

  /** The line ends with a piece that ends it, behind pieces that do not. */
  lemma {:induction false} LineEnds(seen: seq<byte>, chunk: seq<byte>, rest: seq<byte>)
    requires !HasNewline(seen) && EndsLine(chunk)
    ensures FirstLine(seen + chunk + rest) == seen + chunk && HasNewline(seen + chunk + rest)
  {
    var piece := seen + chunk;
    assert piece[..|piece| - 1] == seen + chunk[..|chunk| - 1];
    FirstLineStops(piece, rest);
  }

  /** What is to be said of a line that is complete, with or without its newline. */
  function Judge(line: seq<byte>, max: nat): FrameResult {
    if line == [] then EndOfStream else if |line| > max then TooLarge else Frame(line)
  }

  /** What one slice of the stream tells about the frame. */
  lemma {:induction false} SliceFacts(seen: seq<byte>, chunk: seq<byte>, rest: seq<byte>, ending: Ending, max: nat, fails: bool)
    requires !HasNewline(seen)
    requires if ending == AtNewline then EndsLine(chunk) else !HasNewline(chunk)
    requires ending in {AtEof, Broken} ==> rest == [] && (ending == Broken <==> fails)
    ensures var line, stream := seen + chunk, seen + (chunk + rest);
      && stream == line + rest
      && (ending == AtNewline ==> line != [] && FirstLine(stream) == line && FrameOf(stream, max, fails) == Judge(line, max))
      && (ending != AtNewline ==> !HasNewline(line))
      && (ending == AtEof ==> FirstLine(stream) == line && FrameOf(stream, max, fails) == Judge(line, max))
      && (ending == Broken ==> FirstLine(stream) == line && FrameOf(stream, max, fails) == ReadFailed)
  {
    SumAssociates(seen, chunk, rest);
    if ending == AtNewline {
      LineEnds(seen, chunk, rest);
    } else if ending != BufferFull {
      assert seen + chunk + [] == seen + chunk;
    }
  }

  /** For every way of cutting the stream, readFrame takes exactly the next line
      from it and judges the line as a whole. */
  method ReadFrame(r: Reader, max: nat) returns (result: FrameResult)
    modifies r
    ensures result == FrameOf(old(r.rest), max, r.fails)
    ensures old(r.rest) == FirstLine(old(r.rest)) + r.rest
  {
    var buf: seq<byte> := [];
    var overflow := false;
    ghost var seen: seq<byte> := [];
    while true
      invariant old(r.rest) == seen + r.rest && !HasNewline(seen)
      invariant overflow <==> |seen| > max
      invariant !overflow ==> buf == seen
      decreases |r.rest|
    {
      var chunk, ending := r.ReadSlice();
      SliceFacts(seen, chunk, r.rest, ending, max, r.fails);
      seen := seen + chunk;
      if !overflow {
        if |buf| + |chunk| > max {
          overflow := true;
          buf := [];
        } else {
          buf := buf + chunk;
        }
      }
      if ending == AtNewline {
        return if overflow then TooLarge else Frame(buf);
      }
      if ending == AtEof {
        return if overflow then TooLarge else if |buf| > 0 then Frame(buf) else EndOfStream;
      } else if ending == Broken {
        return ReadFailed;
      }
    }
  }

  // --------------------------------------------------------------------- scan

  /** What scan reports: a discarded frame, a read error, or a line that goes to
      the adapter. */
  datatype Report = DiscardedFrame | ReadError | Parsed(line: seq<byte>)

  /** The length of the white space character of UTF-8 that the bytes start with, 0 if
      they start with none: what bytes.TrimSpace strips in one go. */
  function SpaceWidth(s: seq<byte>): (n: nat)
    ensures n <= |s|
  {
    if s == [] then 0
    else if 9 <= s[0] <= 13 || s[0] == 32 then 1
    else if |s| >= 2 && s[0] == 0xC2 && s[1] in {0x85, 0xA0} then 2
    else if |s| >= 3 && IsWideSpace(s[0], s[1], s[2]) then 3
    else 0
  }

  /** U+1680, U+2000 to U+200A, U+2028, U+2029, U+202F, U+205F and U+3000. */
  predicate IsWideSpace(a: byte, b: byte, c: byte) {
    || (a == 0xE1 && b == 0x9A && c == 0x80)
    || (a == 0xE2 && b == 0x80 && (0x80 <= c <= 0x8A || c in {0xA8, 0xA9, 0xAF}))
    || (a == 0xE2 && b == 0x81 && c == 0x9F)
    || (a == 0xE3 && b == 0x80 && c == 0x80)
  }

  /** White space and nothing else. */
  predicate Blank(line: seq<byte>)
    decreases |line|
  {
    line == [] || (SpaceWidth(line) > 0 && Blank(line[SpaceWidth(line)..]))
  }

  function ReportOf(line: seq<byte>, max: nat): seq<Report> {
    if |line| > max then [DiscardedFrame] else if Blank(line) then [] else [Parsed(line)]
  }

  /** Splitting the stream on newlines and judging each line by itself. */
  function Reports(s: seq<byte>, max: nat, fails: bool): seq<Report> {
    if !HasNewline(s) then
      if fails then [ReadError] else if s == [] then [] else ReportOf(s, max)
    else
      var line := FirstLine(s);
      ReportOf(line, max) + Reports(s[|line|..], max, fails)
  }

  /** One turn of scan: the reports of a stream are those of its first line
      followed by those of the rest. */
  lemma {:induction false} ReportsNext(s: seq<byte>, rest: seq<byte>, max: nat, fails: bool)
    requires s == FirstLine(s) + rest
    ensures match FrameOf(s, max, fails)
            case Frame(line) =>
              Reports(s, max, fails) == (if Blank(line) then [] else [Parsed(line)]) + Reports(rest, max, fails)
            case TooLarge => Reports(s, max, fails) == [DiscardedFrame] + Reports(rest, max, fails)
            case EndOfStream => Reports(s, max, fails) == [] && rest == []
            case ReadFailed => Reports(s, max, fails) == [ReadError] && rest == []
  {
    var line := FirstLine(s);
    assert s[|line|..] == rest;
  }

  /** scan ends on every finite stream, and however the stream is cut up, its
      reports are those of the lines of the stream. */
  method Scan(r: Reader, max: nat) returns (out: seq<Report>)
    modifies r
    ensures out == Reports(old(r.rest), max, r.fails)
    ensures r.rest == []
  {
    out := [];
    while true
      invariant Reports(old(r.rest), max, r.fails) == out + Reports(r.rest, max, r.fails)
      decreases |r.rest|
    {
      ghost var before, sofar := r.rest, out;
      var result := ReadFrame(r, max);
      ReportsNext(before, r.rest, max, r.fails);
      if result == TooLarge {
        out := out + [DiscardedFrame];
      } else if result == ReadFailed {
        return out + [ReadError];
      } else if result == EndOfStream {
        return;
      } else if !Blank(result.line) {
        out := out + [Parsed(result.line)];
      }
      SumAssociates(sofar, out[|sofar|..], Reports(r.rest, max, r.fails));
      assert out == sofar + out[|sofar|..];
    }
  }

  // ---------------------------------------------------------------- properties

  /** The stream cut into its lines. */
  function Lines(s: seq<byte>): seq<seq<byte>>
    decreases |s|
  {
    if s == [] then [] else [FirstLine(s)] + Lines(s[|FirstLine(s)|..])
  }

  /** A cutting into lines: all but the last piece end with their only newline,
      and the last one is not empty and has no other newline. */
  ghost predicate IsCutting(parts: seq<seq<byte>>) {
    && (forall i :: 0 <= i < |parts| - 1 ==> EndsLine(parts[i]))
    && (parts != [] ==> EndsLine(parts[|parts| - 1])
                        || (parts[|parts| - 1] != [] && !HasNewline(parts[|parts| - 1])))
  }

  lemma {:induction false} LinesCons(first: seq<byte>, tail: seq<byte>)
    requires EndsLine(first) || (first != [] && !HasNewline(first) && tail == [])
    ensures Lines(first + tail) == [first] + Lines(tail)
  {
    if EndsLine(first) {
      FirstLineStops(first, tail);
    } else {
      assert first + tail == first;
    }
    assert (first + tail)[|first|..] == tail;
  }

  lemma {:induction false} CuttingParts(parts: seq<seq<byte>>)
    requires IsCutting(parts) && parts != []
    ensures IsCutting(parts[1..])
    ensures EndsLine(parts[0]) || (parts[0] != [] && !HasNewline(parts[0]) && parts[1..] == [])
  {
  }

  /** Lines is the one and only way to cut a stream into lines. */
  lemma {:induction false} LinesAreTheCutting(parts: seq<seq<byte>>)
    requires IsCutting(parts)
    ensures Lines(Flatten(parts)) == parts
  {
    if parts != [] {
      var first, rest := parts[0], parts[1..];
      CuttingParts(parts);
      FlattenCons(parts);
      LinesCons(first, Flatten(rest));
      LinesAreTheCutting(rest);
      assert parts == [first] + rest;
    }
  }

  lemma {:induction false} LinesCut(s: seq<byte>)
    ensures IsCutting(Lines(s)) && Flatten(Lines(s)) == s
    decreases |s|
  {
    if s != [] {
      var line := FirstLine(s);
      LinesCut(s[|line|..]);
      if !HasNewline(s) {
        assert s[|line|..] == [];
      }
      assert Lines(s)[1..] == Lines(s[|line|..]);
      FlattenCons(Lines(s));
      assert s == line + s[|line|..];
    }
  }

  function ReportAll(lines: seq<seq<byte>>, max: nat): seq<Report> {
    if lines == [] then [] else ReportOf(lines[0], max) + ReportAll(lines[1..], max)
  }

  /** Scanning a stream that ends well is judging its lines one by one, so what
      is reported for a line depends on that line only: an over-long line is
      replaced by one report and changes nothing before or after it. */
  lemma {:induction false} ScanJudgesLineByLine(s: seq<byte>, max: nat)
    ensures Reports(s, max, false) == ReportAll(Lines(s), max)
    decreases |s|
  {
    if s != [] {
      var line := FirstLine(s);
      ScanJudgesLineByLine(s[|line|..], max);
      assert Lines(s)[1..] == Lines(s[|line|..]);
      if !HasNewline(s) {
        assert s[|line|..] == [];
        assert ReportAll(Lines(s), max) == ReportOf(s, max) + [];
      }
    }
  }

  /** A stream that breaks loses its unterminated end only. */
  lemma {:induction false} BrokenStreamKeepsWholeLines(whole: seq<byte>, tail: seq<byte>, max: nat)
    requires whole == [] || whole[|whole| - 1] == NEWLINE
    requires !HasNewline(tail)
    ensures Reports(whole + tail, max, true) == Reports(whole, max, false) + [ReadError]
    decreases |whole|
  {
    if whole == [] {
      assert whole + tail == tail;
    } else {
      var line := FirstLine(whole);
      var more := whole[|line|..];
      assert HasNewline(whole) && whole == line + more;
      assert more != [] ==> more[|more| - 1] == whole[|whole| - 1];
      BrokenStreamKeepsWholeLines(more, tail, max);
      SumAssociates(line, more, tail);
      FirstLineStops(line, more + tail);
      assert (whole + tail)[|line|..] == more + tail;
      SumAssociates(ReportOf(line, max), Reports(more, max, false), [ReadError]);
    }
  }

  // ------------------------------------------------------------- what scan lets through

  /** The characters that unicode.IsSpace names, in UTF-8: those of Latin-1, U+1680, U+2000
      to U+200A, U+2028, U+2029, U+202F, U+205F and U+3000. */
  predicate IsSpace(s: seq<byte>) {
    || s in {[0x9], [0xA], [0xB], [0xC], [0xD], [0x20], [0xC2, 0x85], [0xC2, 0xA0]}
    || s in {[0xE1, 0x9A, 0x80], [0xE2, 0x80, 0x80], [0xE2, 0x80, 0x81], [0xE2, 0x80, 0x82], [0xE2, 0x80, 0x83], [0xE2, 0x80, 0x84],
             [0xE2, 0x80, 0x85], [0xE2, 0x80, 0x86], [0xE2, 0x80, 0x87], [0xE2, 0x80, 0x88], [0xE2, 0x80, 0x89], [0xE2, 0x80, 0x8A],
             [0xE2, 0x80, 0xA8], [0xE2, 0x80, 0xA9], [0xE2, 0x80, 0xAF], [0xE2, 0x81, 0x9F], [0xE3, 0x80, 0x80]}
  }

  /** The text consists of spaces. */
  ghost predicate IsWhite(s: seq<byte>)
    decreases |s|
  {
    s == [] || exists n :: 0 < n <= |s| && IsSpace(s[..n]) && IsWhite(s[n..])
  }

  lemma {:induction false} WideSpaceIff(a: byte, b: byte, c: byte)
    ensures IsWideSpace(a, b, c) <==> IsSpace([a, b, c])
  {
  }

  lemma {:induction false} SpaceWidthIff(s: seq<byte>, n: nat)
    requires 0 < n <= |s|
    ensures IsSpace(s[..n]) <==> SpaceWidth(s) == n
  {
    if n == 1 {
      assert s[..n] == [s[0]];
      OneByteIff(s[0]);
    } else if n == 2 {
      assert s[..n] == [s[0], s[1]];
      TwoBytesIff(s[0], s[1]);
    } else if n == 3 {
      assert s[..n] == [s[0], s[1], s[2]];
      WideSpaceIff(s[0], s[1], s[2]);
    }
  }

  lemma {:induction false} OneByteIff(a: byte)
    ensures IsSpace([a]) <==> 9 <= a <= 13 || a == 32
  {
  }

  lemma {:induction false} TwoBytesIff(a: byte, b: byte)
    ensures IsSpace([a, b]) <==> a == 0xC2 && b in {0x85, 0xA0}
  {
  }

  lemma {:induction false} BlankIff(line: seq<byte>)
    ensures Blank(line) <==> IsWhite(line)
    decreases |line|
  {
    if line != [] {
      var n := SpaceWidth(line);
      if n > 0 {
        SpaceWidthIff(line, n);
        BlankIff(line[n..]);
      }
      forall m | 0 < m <= |line| && IsSpace(line[..m]) ensures m == n {
        SpaceWidthIff(line, m);
      }
    }
  }

  /** The lines that a cutting lets through to the adapter. */
  ghost function Passed(lines: seq<seq<byte>>, max: nat): seq<seq<byte>> {
    if lines == [] then []
    else (if |lines[0]| <= max && !IsWhite(lines[0]) then [lines[0]] else []) + Passed(lines[1..], max)
  }

  function TooLong(lines: seq<seq<byte>>, max: nat): nat {
    if lines == [] then 0 else (if |lines[0]| > max then 1 else 0) + TooLong(lines[1..], max)
  }

  function ParsedLines(reports: seq<Report>): seq<seq<byte>> {
    if reports == [] then []
    else (if reports[0].Parsed? then [reports[0].line] else []) + ParsedLines(reports[1..])
  }

  function Discards(reports: seq<Report>): nat {
    if reports == [] then 0 else (if reports[0] == DiscardedFrame then 1 else 0) + Discards(reports[1..])
  }

  lemma {:induction false} ReportAllSays(lines: seq<seq<byte>>, max: nat)
    ensures var reports := ReportAll(lines, max);
      && ParsedLines(reports) == Passed(lines, max) && Discards(reports) == TooLong(lines, max)
      && |reports| == |ParsedLines(reports)| + Discards(reports)
  {
    if lines != [] {
      ReportAllSays(lines[1..], max);
      BlankIff(lines[0]);
      var first, rest := ReportOf(lines[0], max), ReportAll(lines[1..], max);
      if first == [] {
        assert first + rest == rest;
      } else {
        assert (first + rest)[1..] == rest;
      }
    }
  }

  /** However a stream of these lines is cut up, scan passes on each line that is no longer
      than the cap, newline included, and is not white space alone, in order and whole;
      it reports each longer one once, and says nothing else. */
  lemma {:induction false} ScanPassesOn(parts: seq<seq<byte>>, max: nat)
    requires IsCutting(parts)
    ensures var reports := Reports(Flatten(parts), max, false);
      && ParsedLines(reports) == Passed(parts, max)
      && Discards(reports) == TooLong(parts, max)
      && |reports| == |Passed(parts, max)| + TooLong(parts, max)
  {
    LinesAreTheCutting(parts);
    ScanJudgesLineByLine(Flatten(parts), max);
    ReportAllSays(parts, max);
  }
}
