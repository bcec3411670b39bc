/** Bounding the output of tools: whole lines from the front, failure lines, and
    a true ending, within bytes and lines. */

module Truncation {
  import opened Utf8

  const NL: Scalar := 10

  // ----- lines -----

  function Breaks(text: Text): nat {
    if text == [] then 0 else (if text[0] == NL then 1 else 0) + Breaks(text[1..])
  }

  /** The pieces between line breaks. */
  function Pieces(text: Text): (pieces: seq<Text>)
    ensures pieces != []
  {
    if text == [] then [[]]
    else
      var rest := Pieces(text[1..]);
      if text[0] == NL then [[]] + rest else [[text[0]] + rest[0]] + rest[1..]
  }

  function SplitLines(text: Text): seq<Text> {
    if text == [] then []
    else if text[|text| - 1] == NL then Pieces(text)[..|Pieces(text)| - 1]
    else Pieces(text)
  }

  function Join(lines: seq<Text>): Text {
    if lines == [] then []
    else if |lines| == 1 then lines[0]
    else Join(lines[..|lines| - 1]) + [NL] + lines[|lines| - 1]
  }

  /** How many lines a result counts for. */
  function LineCount(text: Text): nat {
    |SplitLines(text)|
  }

  ghost predicate Plain(lines: seq<Text>) {
    forall line :: line in lines ==> NL !in line
  }

  lemma {:induction false} BreaksAppend(a: Text, b: Text)
    ensures Breaks(a + b) == Breaks(a) + Breaks(b)
  {
    if a == [] {
      assert a + b == b;
    } else {
      assert (a + b)[1..] == a[1..] + b;
      BreaksAppend(a[1..], b);
    }
  }

  lemma {:induction false} NoBreaks(text: Text)
    ensures NL !in text <==> Breaks(text) == 0
  {
    if text != [] {
      NoBreaks(text[1..]);
      assert text == [text[0]] + text[1..];
    }
  }

  lemma {:induction false} PiecesPlain(text: Text)
    ensures Plain(Pieces(text)) && |Pieces(text)| == Breaks(text) + 1
  {
    if text != [] { PiecesPlain(text[1..]); }
  }

  lemma {:induction false} JoinFront(line: Text, lines: seq<Text>)
    requires lines != []
    ensures Join([line] + lines) == line + [NL] + Join(lines)
  {
    var all := [line] + lines;
    if |lines| == 1 {
      assert all[..1] == [line];
    } else {
      assert all[..|all| - 1] == [line] + lines[..|lines| - 1];
      JoinFront(line, lines[..|lines| - 1]);
    }
  }

  lemma JoinLonger(c: Scalar, rest: seq<Text>)
    requires rest != []
    ensures Join([[c] + rest[0]] + rest[1..]) == [c] + Join(rest)
  {
    if |rest| > 1 {
      assert rest == [rest[0]] + rest[1..];
      JoinFront(rest[0], rest[1..]);
      JoinFront([c] + rest[0], rest[1..]);
    }
  }

  lemma {:induction false} JoinPieces(text: Text)
    ensures Join(Pieces(text)) == text
  {
    if text != [] {
      var rest := Pieces(text[1..]);
      JoinPieces(text[1..]);
      assert text == [text[0]] + text[1..];
      if text[0] == NL {
        JoinFront([], rest);
      } else {
        JoinLonger(text[0], rest);
      }
    }
  }

  lemma {:induction false} JoinBreaks(lines: seq<Text>)
    requires Plain(lines)
    ensures Breaks(Join(lines)) == if lines == [] then 0 else |lines| - 1
  {
    if |lines| == 1 {
      assert lines[0] in lines;
      NoBreaks(lines[0]);
    } else if |lines| > 1 {
      var n := |lines| - 1;
      assert lines[n] in lines;
      assert forall line :: line in lines[..n] ==> line in lines;
      JoinBreaks(lines[..n]);
      NoBreaks(lines[n]);
      BreaksAppend(Join(lines[..n]) + [NL], lines[n]);
      BreaksAppend(Join(lines[..n]), [NL]);
    }
  }

  /** Lines of a text: one per break, and one more for an unfinished last line. */
  lemma LineCounts(text: Text)
    ensures LineCount(text) == Breaks(text) + if text != [] && text[|text| - 1] != NL then 1 else 0
  {
    PiecesPlain(text);
  }

  lemma SplitPlain(text: Text)
    ensures Plain(SplitLines(text))
  {
    PiecesPlain(text);
  }

  lemma JoinMore(lines: seq<Text>, line: Text)
    ensures Join(lines + [line]) == Join(lines) + (if lines == [] then [] else [NL]) + line
  {
    assert (lines + [line])[..|lines|] == lines;
  }

  /** The lines put together again are the text, up to a final line break. */
  lemma {:induction false} LastPieceEmpty(text: Text)
    requires text != [] && text[|text| - 1] == NL
    ensures Pieces(text)[|Pieces(text)| - 1] == []
    ensures |Pieces(text)| > 1
  {
    if |text| > 1 { LastPieceEmpty(text[1..]); }
  }

  lemma SplitJoins(text: Text)
    ensures text == Join(SplitLines(text)) || text == Join(SplitLines(text)) + [NL]
  {
    JoinPieces(text);
    if text != [] && text[|text| - 1] == NL {
      LastPieceEmpty(text);
      var pieces := Pieces(text);
      assert pieces == pieces[..|pieces| - 1] + [pieces[|pieces| - 1]];
      JoinMore(pieces[..|pieces| - 1], []);
    }
  }

  // ----- the front -----

  /** `k` is the most whole lines from the front that fit. */
  ghost predicate Front(text: Text, maxLines: nat, maxBytes: nat, k: nat) {
    var lines := SplitLines(text);
    && k <= |lines| && k <= maxLines
    && Bytes(Join(lines[..k])) <= maxBytes
    && (k < |lines| && k < maxLines ==> Bytes(Join(lines[..k + 1])) > maxBytes)
  }

  ghost predicate IsFront(text: Text, maxLines: nat, maxBytes: nat, head: Text) {
    exists k: nat :: Front(text, maxLines, maxBytes, k) && head == Join(SplitLines(text)[..k])
  }

  lemma JoinBytes(lines: seq<Text>, line: Text)
    ensures Bytes(Join(lines + [line])) == Bytes(Join(lines)) + (if lines == [] then 0 else 1) + Bytes(line)
  {
    JoinMore(lines, line);
    BytesAppend(Join(lines) + (if lines == [] then [] else [NL]), line);
    BytesAppend(Join(lines), if lines == [] then [] else [NL]);
  }

  method HeadWithin(text: Text, maxLines: nat, maxBytes: nat) returns (head: Text)
    ensures IsFront(text, maxLines, maxBytes, head)
  {
    var lines := SplitLines(text);
    var taken := if |lines| <= maxLines then lines else lines[..maxLines];
    var output: seq<Text> := [];
    var bytes := 0;
    ghost var k := 0;
    while |output| < |taken|
      invariant 0 <= k <= |taken| && output == lines[..k]
      invariant bytes == Bytes(Join(output)) <= maxBytes
    {
      var line := taken[|output|];
      var separator := if output == [] then 0 else 1;
      assert lines[..k + 1] == output + [line];
      JoinBytes(output, line);
      if bytes + Bytes(line) + separator > maxBytes { break; }
      output := output + [line];
      bytes := bytes + Bytes(line) + separator;
      k := k + 1;
    }
    head := Join(output);
    assert Front(text, maxLines, maxBytes, k);
  }

  /** The lines of a front, and its being the beginning of the text. */
  lemma FrontBounds(text: Text, maxLines: nat, maxBytes: nat, head: Text)
    requires IsFront(text, maxLines, maxBytes, head)
    ensures head <= text && Bytes(head) <= maxBytes && Breaks(head) + 1 <= Positive(maxLines)
  {
    var lines := SplitLines(text);
    var k: nat :| Front(text, maxLines, maxBytes, k) && head == Join(lines[..k]);
    SplitPlain(text);
    SplitJoins(text);
    JoinPrefix(lines, k);
    JoinBreaks(lines[..k]);
  }

  function Positive(n: nat): nat {
    if n == 0 then 1 else n
  }

  lemma {:induction false} JoinPrefix(lines: seq<Text>, k: nat)
    requires k <= |lines|
    ensures Join(lines[..k]) <= Join(lines)
    decreases |lines|
  {
    if k < |lines| {
      var shorter := lines[..|lines| - 1];
      JoinPrefix(shorter, k);
      assert shorter[..k] == lines[..k];
      assert lines == shorter + [lines[|lines| - 1]];
      JoinMore(shorter, lines[|lines| - 1]);
    } else {
      assert lines[..k] == lines;
    }
  }

  // ----- the ending -----

  /** One more line from the end does not fit. */
  ghost predicate Overflows(lines: seq<Text>, maxBytes: nat, k: nat)
    requires k < |lines|
  {
    Bytes(Join(lines[|lines| - k - 1..])) > maxBytes
  }

  /** The last `k` lines, as many as fit. */
  ghost predicate LastLines(lines: seq<Text>, maxLines: nat, maxBytes: nat, k: nat, tail: Text)
    requires k <= |lines|
  {
    && tail == Join(lines[|lines| - k..]) && Bytes(tail) <= maxBytes
    && (k < |lines| && k < maxLines ==> Overflows(lines, maxBytes, k))
  }

  /** The fitting end of a line that does not fit. */
  ghost predicate LineEnd(line: Text, maxBytes: nat, tail: Text) {
    Bytes(line) > maxBytes && tail == line[CutAt(line, maxBytes)..]
  }

  /** The most whole lines from the end that fit; when not even the last line
      does, as much of its end as fits. */
  ghost predicate Ending(lines: seq<Text>, maxLines: nat, maxBytes: nat, k: nat, tail: Text) {
    && k <= |lines| && k <= maxLines
    && if k == 0 && |lines| > 0 && maxLines > 0 then LineEnd(lines[|lines| - 1], maxBytes, tail)
       else LastLines(lines, maxLines, maxBytes, k, tail)
  }

  ghost predicate IsEnding(text: Text, maxLines: nat, maxBytes: nat, tail: Text) {
    exists k: nat :: Ending(SplitLines(text), maxLines, maxBytes, k, tail)
  }

  lemma JoinFrontBytes(line: Text, lines: seq<Text>)
    ensures Bytes(Join([line] + lines)) == Bytes(line) + (if lines == [] then 0 else 1) + Bytes(Join(lines))
  {
    if lines == [] {
      assert [line] + lines == [line];
    } else {
      JoinFront(line, lines);
      BytesAppend(line + [NL], Join(lines));
      BytesAppend(line, [NL]);
    }
  }

  lemma NextLine(lines: seq<Text>, k: nat)
    requires k < |lines|
    ensures var n := |lines|;
            && lines[n - k - 1..] == [lines[n - k - 1]] + lines[n - k..]
            && Bytes(Join(lines[n - k - 1..])) == Bytes(lines[n - k - 1]) + (if k < 1 then k else 1) + Bytes(Join(lines[n - k..]))
  {
    var n := |lines|;
    assert lines[n - k - 1..] == [lines[n - k - 1]] + lines[n - k..];
    JoinFrontBytes(lines[n - k - 1], lines[n - k..]);
  }

  method TailWithin(text: Text, maxLines: nat, maxBytes: nat) returns (tail: Text)
    ensures IsEnding(text, maxLines, maxBytes, tail)
  {
    tail := TailOfLines(SplitLines(text), maxLines, maxBytes);
  }

  method TailOfLines(lines: seq<Text>, maxLines: nat, maxBytes: nat) returns (tail: Text)
    ensures exists k: nat :: Ending(lines, maxLines, maxBytes, k, tail)
  {
    var n := |lines|;
    var output: seq<Text> := [];
    var bytes := 0;
    var fits := true;
    while |output| < n && |output| < maxLines && fits
      invariant |output| <= n && |output| <= maxLines && output == lines[n - |output|..]
      invariant bytes == Bytes(Join(output)) <= maxBytes
      invariant !fits ==> |output| < n && |output| < maxLines && Overflows(lines, maxBytes, |output|)
      decreases n - |output|, fits
    {
      var line := lines[n - |output| - 1];
      NextLine(lines, |output|);
      var nextBytes := Bytes(line) + (if |output| < 1 then |output| else 1);
      if bytes + nextBytes > maxBytes {
        fits := false;
      } else {
        output := [line] + output;
        bytes := bytes + nextBytes;
      }
    }
    if !fits && output == [] {
      tail := Utf8Tail(lines[n - 1], maxBytes);
      OversizedEnding(lines, maxLines, maxBytes, tail);
    } else {
      tail := Join(output);
      assert Ending(lines, maxLines, maxBytes, |output|, tail);
    }
  }

  lemma OversizedEnding(lines: seq<Text>, maxLines: nat, maxBytes: nat, tail: Text)
    requires lines != [] && maxLines > 0 && Overflows(lines, maxBytes, 0)
    requires var last := lines[|lines| - 1]; tail == last[CutAt(last, maxBytes)..]
    ensures Ending(lines, maxLines, maxBytes, 0, tail)
  {
    assert lines[|lines| - 1..] == [lines[|lines| - 1]];
  }

  ghost predicate Suffix(text: Text, tail: Text) {
    |tail| <= |text| && text[|text| - |tail|..] == tail
  }

  lemma {:induction false} JoinSuffix(lines: seq<Text>, k: nat)
    requires k <= |lines|
    ensures Suffix(Join(lines), Join(lines[k..]))
  {
    if k == 0 {
      assert lines[0..] == lines;
    } else {
      JoinSuffix(lines[1..], k - 1);
      assert lines[1..][k - 1..] == lines[k..];
      assert lines == [lines[0]] + lines[1..];
      if |lines| > 1 {
        JoinFront(lines[0], lines[1..]);
      } else {
        assert lines[k..] == [];
      }
    }
  }

  /** An ending is a true suffix of the text, up to a final line break. */
  lemma EndingIsSuffix(text: Text, maxLines: nat, maxBytes: nat, tail: Text)
    requires IsEnding(text, maxLines, maxBytes, tail) && maxLines > 0
    ensures Suffix(text, tail) || Suffix(text, tail + [NL])
  {
    var k: nat :| Ending(SplitLines(text), maxLines, maxBytes, k, tail);
    var lines := SplitLines(text);
    var joined := Join(lines);
    SplitJoins(text);
    EndingOfLines(lines, maxLines, maxBytes, k, tail);
    if text == joined + [NL] {
      assert text[|text| - |tail + [NL]|..] == joined[|joined| - |tail|..] + [NL];
    }
  }

  lemma SuffixOfSuffix(text: Text, middle: Text, tail: Text)
    requires Suffix(text, middle) && Suffix(middle, tail)
    ensures Suffix(text, tail)
  {
  }

  lemma LineEndSuffix(line: Text, maxBytes: nat, tail: Text)
    requires LineEnd(line, maxBytes, tail)
    ensures Suffix(line, tail)
  {
  }

  lemma EndingOfLines(lines: seq<Text>, maxLines: nat, maxBytes: nat, k: nat, tail: Text)
    requires Ending(lines, maxLines, maxBytes, k, tail) && maxLines > 0
    ensures Suffix(Join(lines), tail)
  {
    var n := |lines|;
    if k == 0 && n > 0 {
      JoinSuffix(lines, n - 1);
      assert lines[n - 1..] == [lines[n - 1]];
      LineEndSuffix(lines[n - 1], maxBytes, tail);
      SuffixOfSuffix(Join(lines), lines[n - 1], tail);
    } else {
      JoinSuffix(lines, n - k);
    }
  }

  lemma EndingBounds(text: Text, maxLines: nat, maxBytes: nat, tail: Text)
    requires IsEnding(text, maxLines, maxBytes, tail) && maxLines > 0
    ensures Bytes(tail) <= maxBytes && Breaks(tail) + 1 <= maxLines
  {
    var k: nat :| Ending(SplitLines(text), maxLines, maxBytes, k, tail);
    SplitPlain(text);
    EndingBoundsAt(SplitLines(text), maxLines, maxBytes, k, tail);
  }

  lemma LineEndBounds(line: Text, maxBytes: nat, tail: Text)
    requires LineEnd(line, maxBytes, tail) && NL !in line
    ensures Bytes(tail) <= maxBytes && Breaks(tail) == 0
  {
    CutFits(line, maxBytes);
    NoBreaks(tail);
  }

  lemma EndingBoundsAt(lines: seq<Text>, maxLines: nat, maxBytes: nat, k: nat, tail: Text)
    requires Plain(lines) && Ending(lines, maxLines, maxBytes, k, tail) && maxLines > 0
    ensures Bytes(tail) <= maxBytes && Breaks(tail) + 1 <= maxLines
  {
    var n := |lines|;
    if k == 0 && n > 0 {
      assert lines[n - 1] in lines;
      LineEndBounds(lines[n - 1], maxBytes, tail);
    } else {
      assert forall line :: line in lines[n - k..] ==> line in lines;
      JoinBreaks(lines[n - k..]);
    }
  }

  // ----- sections -----

  function Matching(lines: seq<Text>, diagnostic: Text -> bool): seq<Text> {
    if lines == [] then []
    else (if diagnostic(lines[0]) then [lines[0]] else []) + Matching(lines[1..], diagnostic)
  }

  /** The failure lines of a text, one per line. */
  function Diagnostics(text: Text, diagnostic: Text -> bool): Text {
    Join(Matching(SplitLines(text), diagnostic))
  }

  method DiagnosticsWithin(text: Text, diagnostic: Text -> bool, maxLines: nat, maxBytes: nat) returns (section: Text)
    ensures IsFront(Diagnostics(text, diagnostic), maxLines, maxBytes, section)
  {
    var matches := MatchingLines(SplitLines(text), diagnostic);
    section := HeadWithin(Join(matches), maxLines, maxBytes);
  }

  method MatchingLines(lines: seq<Text>, diagnostic: Text -> bool) returns (matches: seq<Text>)
    ensures matches == Matching(lines, diagnostic)
  {
    matches := [];
    for i := 0 to |lines|
      invariant matches + Matching(lines[i..], diagnostic) == Matching(lines, diagnostic)
    {
      assert lines[i..][1..] == lines[i + 1..];
      if diagnostic(lines[i]) { matches := matches + [lines[i]]; }
    }
  }

  /** "\n[... orchestration output omitted ...]\n" */
  const OMITTED_BYTES := 40

  ghost predicate Separator(text: Text) {
    Bytes(text) == OMITTED_BYTES && Breaks(text) == 2
  }

  function Share(total: nat): nat {
    total / 5
  }

  function AtLeastOne(n: int): nat {
    if n < 1 then 1 else n
  }

  function Sections(parts: seq<Text>, separator: Text): Text {
    if parts == [] then []
    else if |parts| == 1 then parts[0]
    else parts[0] + separator + Sections(parts[1..], separator)
  }

  function Present(parts: seq<Text>): seq<Text> {
    if parts == [] then [] else (if parts[0] == [] then [] else [parts[0]]) + Present(parts[1..])
  }

  /** A beginning, failure lines and an ending, each within its own limits. */
  ghost predicate Parted(text: Text, diagnostic: Text -> bool, lines: nat, bytes: nat, tailLines: nat, tailBytes: nat, parts: (Text, Text, Text)) {
    && IsFront(text, lines, bytes, parts.0)
    && IsFront(Diagnostics(text, diagnostic), lines, bytes, parts.1)
    && IsEnding(text, tailLines, tailBytes, parts.2)
  }

  function Laid(parts: (Text, Text, Text), separator: Text): Text {
    Sections(Present([parts.0, parts.1, parts.2]), separator)
  }

  function LineShare(maxLines: nat): nat {
    AtLeastOne(Share(maxLines))
  }

  function LinesLeft(maxLines: nat): nat {
    AtLeastOne(maxLines - LineShare(maxLines) - LineShare(maxLines))
  }

  function BytesLeft(maxBytes: nat): nat {
    maxBytes - Share(maxBytes) - Share(maxBytes)
  }

  /** The limits are shares of the whole: a fifth, a fifth and the rest. */
  ghost predicate Sectioned(text: Text, diagnostic: Text -> bool, maxLines: nat, maxBytes: nat, parts: (Text, Text, Text)) {
    Parted(text, diagnostic, LineShare(maxLines), Share(maxBytes), LinesLeft(maxLines), BytesLeft(maxBytes), parts)
  }

  /** Beginning, failure lines and ending, in this order, with a separator between
      two that are there and none beside one that is empty. */
  lemma LaidInOrder(head: Text, failures: Text, ending: Text, separator: Text)
    ensures Laid((head, failures, ending), separator)
            == head + (if head != [] && failures + ending != [] then separator else [])
               + failures + (if failures != [] && ending != [] then separator else []) + ending
  {
    var parts := [head, failures, ending];
    assert parts[1..] == [failures, ending] && [failures, ending][1..] == [ending] && [ending][1..] == [];
    assert Present([ending]) == if ending == [] then [] else [ending];
    var last := Present([ending]);
    var rest := Present([failures, ending]);
    assert rest == (if failures == [] then [] else [failures]) + last;
    assert Present(parts) == (if head == [] then [] else [head]) + rest;
    assert Sections(last, separator) == ending;
    SectionsFront(failures, last, separator);
    var tail := failures + (if failures != [] && ending != [] then separator else []) + ending;
    assert Sections(rest, separator) == tail && (rest == [] <==> failures + ending == []);
    SectionsFront(head, rest, separator);
    assert Present(parts) == if head == [] then rest else [head] + rest;
    assert rest == [] ==> head == [] || Present(parts) == [head];
    assert Laid((head, failures, ending), separator) == if head == [] then tail else if rest == [] then head else head + separator + tail;
    InOrder(head, failures, ending, separator, tail);
  }

  lemma InOrder(head: Text, failures: Text, ending: Text, separator: Text, tail: Text)
    requires tail == failures + (if failures != [] && ending != [] then separator else []) + ending
    ensures (if head == [] then tail else if failures + ending == [] then head else head + separator + tail)
            == head + (if head != [] && failures + ending != [] then separator else [])
               + failures + (if failures != [] && ending != [] then separator else []) + ending
  {
    var gap := if failures != [] && ending != [] then separator else [];
    if head != [] && failures + ending != [] {
      assert head + separator + tail == head + separator + failures + gap + ending;
    } else if head == [] {
      assert head + [] + failures == failures;
    } else {
      assert failures == [] && ending == [];
    }
  }

  lemma SectionsFront(part: Text, rest: seq<Text>, separator: Text)
    ensures Sections([part] + rest, separator) == if rest == [] then part else part + separator + Sections(rest, separator)
  {
    assert ([part] + rest)[1..] == rest;
  }

  /** Failure lines are the lines of the source that match, in their order. */
  lemma {:induction false} MatchingJoins(before: seq<Text>, line: Text, diagnostic: Text -> bool)
    ensures Matching([], diagnostic) == []
    ensures Matching(before + [line], diagnostic) == Matching(before, diagnostic) + if diagnostic(line) then [line] else []
  {
    if before == [] {
      assert before + [line] == [line] && [line][1..] == [];
    } else {
      assert (before + [line])[1..] == before[1..] + [line];
      MatchingJoins(before[1..], line, diagnostic);
    }
  }

  method HeadTailWithin(text: Text, diagnostic: Text -> bool, separator: Text, maxLines: nat, maxBytes: nat) returns (payload: Text)
    ensures exists parts :: Sectioned(text, diagnostic, maxLines, maxBytes, parts) && payload == Laid(parts, separator)
    ensures exists head, failures, ending ::
              && Sectioned(text, diagnostic, maxLines, maxBytes, (head, failures, ending))
              && head <= payload && Suffix(payload, ending)
              && payload == head + (if head != [] && failures + ending != [] then separator else [])
                            + failures + (if failures != [] && ending != [] then separator else []) + ending
  {
    var parts := Parts(text, diagnostic, LineShare(maxLines), Share(maxBytes), LinesLeft(maxLines), BytesLeft(maxBytes));
    payload := Laid(parts, separator);
    LaidInOrder(parts.0, parts.1, parts.2, separator);
    assert Sectioned(text, diagnostic, maxLines, maxBytes, parts);
    assert parts == (parts.0, parts.1, parts.2);
  }

  method Parts(text: Text, diagnostic: Text -> bool, lines: nat, bytes: nat, tailLines: nat, tailBytes: nat) returns (parts: (Text, Text, Text))
    ensures Parted(text, diagnostic, lines, bytes, tailLines, tailBytes, parts)
  {
    var head := HeadWithin(text, lines, bytes);
    var diagnostics := DiagnosticsWithin(text, diagnostic, lines, bytes);
    var tail := TailWithin(text, tailLines, tailBytes);
    parts := (head, diagnostics, tail);
  }

  // ----- the bounds of a result -----

  datatype Policy = Policy(maxBytes: nat, maxLines: nat, headTail: bool)

  const READ := Policy(16 * 1024, 400, false)
  const GREP := Policy(16 * 1024, 240, false)
  const BASH := Policy(24 * 1024, 400, true)

  const NOTICE_BYTES := 1024
  const NOTICE_LINES := 4

  function TotalBytes(parts: seq<Text>): nat {
    if parts == [] then 0 else Bytes(parts[0]) + TotalBytes(parts[1..])
  }

  function TotalBreaks(parts: seq<Text>): nat {
    if parts == [] then 0 else Breaks(parts[0]) + TotalBreaks(parts[1..])
  }

  lemma {:induction false} PresentTotals(parts: seq<Text>)
    ensures TotalBytes(Present(parts)) == TotalBytes(parts) && TotalBreaks(Present(parts)) == TotalBreaks(parts)
    ensures |Present(parts)| <= |parts|
  {
    if parts != [] {
      PresentTotals(parts[1..]);
      var rest := Present(parts[1..]);
      if parts[0] == [] {
        assert Present(parts) == rest;
      } else {
        assert Present(parts) == [parts[0]] + rest && ([parts[0]] + rest)[1..] == rest;
      }
    }
  }

  lemma {:induction false} AllPresent(parts: seq<Text>)
    requires forall p :: p in parts ==> p != []
    ensures Present(parts) == parts
  {
    if parts != [] {
      assert parts[0] in parts && forall p :: p in parts[1..] ==> p in parts;
      AllPresent(parts[1..]);
    }
  }

  lemma {:induction false} SectionsTotals(parts: seq<Text>, separator: Text)
    requires Separator(separator) && parts != []
    ensures Bytes(Sections(parts, separator)) == TotalBytes(parts) + OMITTED_BYTES * (|parts| - 1)
    ensures Breaks(Sections(parts, separator)) == TotalBreaks(parts) + 2 * (|parts| - 1)
  {
    if |parts| > 1 {
      var rest := parts[1..];
      SectionsTotals(rest, separator);
      SectionPair(parts[0], Sections(rest, separator), separator);
      assert Sections(parts, separator) == parts[0] + separator + Sections(rest, separator);
      assert TotalBytes(parts) == Bytes(parts[0]) + TotalBytes(rest) && TotalBreaks(parts) == Breaks(parts[0]) + TotalBreaks(rest);
    } else {
      assert parts[1..] == [] && TotalBytes(parts[1..]) == 0 && TotalBreaks(parts[1..]) == 0;
    }
  }

  lemma ThreeTotals(a: Text, b: Text, c: Text)
    ensures TotalBytes([a, b, c]) == Bytes(a) + Bytes(b) + Bytes(c)
    ensures TotalBreaks([a, b, c]) == Breaks(a) + Breaks(b) + Breaks(c)
  {
    assert [a, b, c][1..] == [b, c] && [b, c][1..] == [c] && [c][1..] == [];
    assert TotalBytes([c]) == Bytes(c) && TotalBreaks([c]) == Breaks(c);
    assert TotalBytes([b, c]) == Bytes(b) + Bytes(c) && TotalBreaks([b, c]) == Breaks(b) + Breaks(c);
  }

  lemma SectionsBounds(a: Text, b: Text, c: Text, separator: Text)
    requires Separator(separator)
    ensures var joined := Sections(Present([a, b, c]), separator);
            && Bytes(joined) <= Bytes(a) + Bytes(b) + Bytes(c) + 2 * OMITTED_BYTES
            && Breaks(joined) <= Breaks(a) + Breaks(b) + Breaks(c) + 4
            && (a != [] && b != [] && c != [] ==> Breaks(joined) == Breaks(a) + Breaks(b) + Breaks(c) + 4)
  {
    ThreeTotals(a, b, c);
    PresentTotals([a, b, c]);
    if a != [] && b != [] && c != [] { AllPresent([a, b, c]); }
    if Present([a, b, c]) != [] { SectionsTotals(Present([a, b, c]), separator); }
  }

  lemma SectionPair(a: Text, b: Text, separator: Text)
    requires Separator(separator)
    ensures Bytes(a + separator + b) == Bytes(a) + OMITTED_BYTES + Bytes(b)
    ensures Breaks(a + separator + b) == Breaks(a) + 2 + Breaks(b)
  {
    BytesAppend(a + separator, b);
    BytesAppend(a, separator);
    BreaksAppend(a + separator, b);
    BreaksAppend(a, separator);
  }

  /** The emitted text. */
  function Emitted(payload: Text, notice: Text): Text {
    payload + [NL, NL] + notice
  }

  lemma TwoBreaks()
    ensures Bytes([NL, NL]) == 2 && Breaks([NL, NL]) == 2
  {
    assert [NL, NL][1..] == [NL] && [NL][1..] == [];
    assert Bytes([NL]) == 1 && Breaks([NL]) == 1;
  }

  ghost predicate OneLine(notice: Text) {
    notice != [] && NL !in notice
  }

  lemma EmittedCounts(payload: Text, notice: Text)
    requires OneLine(notice)
    ensures Bytes(Emitted(payload, notice)) == Bytes(payload) + 2 + Bytes(notice)
    ensures LineCount(Emitted(payload, notice)) == Breaks(payload) + 3
  {
    var text := Emitted(payload, notice);
    BytesAppend(payload + [NL, NL], notice);
    BytesAppend(payload, [NL, NL]);
    TwoBreaks();
    BreaksAppend(payload + [NL, NL], notice);
    BreaksAppend(payload, [NL, NL]);
    NoBreaks(notice);
    LineCounts(text);
    assert text[|text| - 1] == notice[|notice| - 1] && notice[|notice| - 1] in notice;
  }

  /** The widths of the notices: fixed words, numbers, and for `bash` the path or
      the reason there is none. A JavaScript number prints in at most 25 bytes. */
  datatype Continuation = Unavailable | TooLong | Path(bytes: nat)

  function ContinuationBytes(continuation: Continuation): nat {
    match continuation case Unavailable => 55 case TooLong => 66 case Path(bytes) => 45 + bytes
  }

  const NUMBER_BYTES := 25

  ghost predicate ReadNotice(notice: Text) {
    OneLine(notice) && Bytes(notice) <= 135 + 5 * NUMBER_BYTES
  }

  ghost predicate GrepNotice(notice: Text) {
    OneLine(notice) && Bytes(notice) <= 171 + 4 * NUMBER_BYTES
  }

  ghost predicate BashNotice(notice: Text, continuation: Continuation) {
    && OneLine(notice)
    && (continuation.Path? ==> continuation.bytes <= 500)
    && Bytes(notice) <= 113 + 2 * NUMBER_BYTES + ContinuationBytes(continuation)
  }

  /** A truncated `read` or `grep` result: the beginning of the source in whole
      lines, within both limits with its notice. */
  method TruncateHead(text: Text, policy: Policy, notice: Text) returns (emitted: Text)
    requires (policy == READ && ReadNotice(notice)) || (policy == GREP && GrepNotice(notice))
    ensures exists head :: IsFront(text, policy.maxLines - NOTICE_LINES, policy.maxBytes - NOTICE_BYTES, head)
                           && head <= text && emitted == head + [NL, NL] + notice
    ensures Bytes(emitted) <= 16384 && LineCount(emitted) <= if policy == READ then 400 else 240
  {
    var payload := HeadWithin(text, policy.maxLines - NOTICE_LINES, policy.maxBytes - NOTICE_BYTES);
    FrontBounds(text, policy.maxLines - NOTICE_LINES, policy.maxBytes - NOTICE_BYTES, payload);
    EmittedCounts(payload, notice);
    emitted := payload + [NL, NL] + notice;
    assert emitted == Emitted(payload, notice);
  }

  /** Three sections at their limits, two separators and the notice fit. */
  lemma BashBounds(head: Text, diagnostics: Text, tail: Text, separator: Text, notice: Text, continuation: Continuation)
    requires Separator(separator) && BashNotice(notice, continuation)
    requires Bytes(head) <= 4710 && Bytes(diagnostics) <= 4710 && Bytes(tail) <= 14132
    requires Breaks(head) <= 78 && Breaks(diagnostics) <= 78 && Breaks(tail) <= 237
    ensures var emitted := Emitted(Laid((head, diagnostics, tail), separator), notice);
            Bytes(emitted) <= BASH.maxBytes && LineCount(emitted) <= BASH.maxLines
  {
    SectionsBounds(head, diagnostics, tail, separator);
    EmittedCounts(Laid((head, diagnostics, tail), separator), notice);
  }

  /** A truncated `bash` result: a beginning, failure lines and a true ending,
      within both limits with the separators and the notice. */
  method TruncateBash(text: Text, diagnostic: Text -> bool, separator: Text, notice: Text, ghost continuation: Continuation) returns (emitted: Text)
    requires Separator(separator) && BashNotice(notice, continuation)
    ensures exists head, failures, ending ::
              && IsFront(text, 79, 4710, head) && head <= text && head <= emitted
              && IsFront(Diagnostics(text, diagnostic), 79, 4710, failures)
              && IsEnding(text, 238, 14132, ending) && (Suffix(text, ending) || Suffix(text, ending + [NL]))
              && Suffix(emitted, ending + [NL, NL] + notice)
              && emitted == head + (if head != [] && failures + ending != [] then separator else [])
                            + failures + (if failures != [] && ending != [] then separator else [])
                            + ending + [NL, NL] + notice
    ensures Bytes(emitted) <= 24576 && LineCount(emitted) <= 400
  {
    var maxLines: nat, maxBytes: nat := BASH.maxLines - NOTICE_LINES, BASH.maxBytes - NOTICE_BYTES;
    assert maxLines == 396 && maxBytes == 23552;
    var payload := HeadTailWithin(text, diagnostic, separator, maxLines, maxBytes);
    ghost var parts :| Sectioned(text, diagnostic, 396, 23552, parts) && payload == Laid(parts, separator);
    BashParts(text, diagnostic, parts);
    BashBounds(parts.0, parts.1, parts.2, separator, notice, continuation);
    emitted := payload + [NL, NL] + notice;
    assert emitted == Emitted(payload, notice);
    BashLayout(text, diagnostic, parts, separator, notice, emitted);
  }

  lemma EmittedLayout(head: Text, failures: Text, ending: Text, separator: Text, notice: Text, emitted: Text)
    requires emitted == Laid((head, failures, ending), separator) + [NL, NL] + notice
    ensures head <= emitted && Suffix(emitted, ending + [NL, NL] + notice)
    ensures emitted == head + (if head != [] && failures + ending != [] then separator else [])
                       + failures + (if failures != [] && ending != [] then separator else [])
                       + ending + [NL, NL] + notice
  {
    LaidInOrder(head, failures, ending, separator);
    var front := head + (if head != [] && failures + ending != [] then separator else [])
                 + failures + (if failures != [] && ending != [] then separator else []);
    assert emitted == front + (ending + [NL, NL] + notice);
  }

  lemma BashLayout(text: Text, diagnostic: Text -> bool, parts: (Text, Text, Text), separator: Text, notice: Text, emitted: Text)
    requires Sectioned(text, diagnostic, 396, 23552, parts) && emitted == Laid(parts, separator) + [NL, NL] + notice
    ensures IsFront(text, 79, 4710, parts.0) && parts.0 <= emitted
    ensures IsFront(Diagnostics(text, diagnostic), 79, 4710, parts.1)
    ensures IsEnding(text, 238, 14132, parts.2) && Suffix(emitted, parts.2 + [NL, NL] + notice)
    ensures emitted == parts.0 + (if parts.0 != [] && parts.1 + parts.2 != [] then separator else [])
                       + parts.1 + (if parts.1 != [] && parts.2 != [] then separator else [])
                       + parts.2 + [NL, NL] + notice
  {
    BashShares();
    EmittedLayout(parts.0, parts.1, parts.2, separator, notice, emitted);
  }

  lemma BashShares()
    ensures LineShare(396) == 79 && Share(23552) == 4710
    ensures LinesLeft(396) == 238 && BytesLeft(23552) == 14132
  {
  }

  /** The shares of 396 lines and 23552 bytes. */
  lemma BashParts(text: Text, diagnostic: Text -> bool, parts: (Text, Text, Text))
    requires Sectioned(text, diagnostic, 396, 23552, parts)
    ensures parts.0 <= text && (Suffix(text, parts.2) || Suffix(text, parts.2 + [NL]))
    ensures Bytes(parts.0) <= 4710 && Bytes(parts.1) <= 4710 && Bytes(parts.2) <= 14132
    ensures Breaks(parts.0) <= 78 && Breaks(parts.1) <= 78 && Breaks(parts.2) <= 237
  {
    BashShares();
    FrontBounds(text, 79, 4710, parts.0);
    FrontBounds(Diagnostics(text, diagnostic), 79, 4710, parts.1);
    EndingBounds(text, 238, 14132, parts.2);
    EndingIsSuffix(text, 238, 14132, parts.2);
  }

  /** The line limit of `bash` is reached: three sections at their limits of 79,
      79 and 238 lines make exactly 400 lines. */
  lemma BashLinesTight(head: Text, diagnostics: Text, tail: Text, separator: Text, notice: Text)
    requires Separator(separator) && OneLine(notice)
    requires Breaks(head) == 78 && Breaks(diagnostics) == 78 && Breaks(tail) == 237
    ensures LineCount(Emitted(Laid((head, diagnostics, tail), separator), notice)) == BASH.maxLines
  {
    SectionsBounds(head, diagnostics, tail, separator);
    EmittedCounts(Laid((head, diagnostics, tail), separator), notice);
  }

  // ----- a source text that reaches the line limit -----

  function Repeat(line: Text, n: nat): (lines: seq<Text>)
    ensures |lines| == n && forall i :: 0 <= i < n ==> lines[i] == line
  {
    if n == 0 then [] else Repeat(line, n - 1) + [line]
  }

  lemma {:induction false} PiecesLine(line: Text, text: Text)
    requires NL !in line
    ensures Pieces(line + [NL] + text) == [line] + Pieces(text)
    ensures Pieces(line) == [line]
  {
    if line == [] {
      assert line + [NL] + text == [NL] + text && ([NL] + text)[1..] == text;
    } else {
      PiecesLine(line[1..], text);
      assert (line + [NL] + text)[1..] == line[1..] + [NL] + text;
      assert line == [line[0]] + line[1..];
    }
  }

  lemma {:induction false} PiecesJoin(lines: seq<Text>)
    requires Plain(lines) && lines != []
    ensures Pieces(Join(lines)) == lines
  {
    assert lines[0] in lines;
    assert lines == [lines[0]] + lines[1..];
    if |lines| == 1 {
      PiecesLine(lines[0], []);
    } else {
      assert forall line :: line in lines[1..] ==> line in lines;
      JoinFront(lines[0], lines[1..]);
      PiecesLine(lines[0], Join(lines[1..]));
      PiecesJoin(lines[1..]);
    }
  }

  lemma JoinLast(lines: seq<Text>)
    requires lines != [] && lines[|lines| - 1] != []
    ensures var last := lines[|lines| - 1]; Join(lines) != [] && Join(lines)[|Join(lines)| - 1] == last[|last| - 1]
  {
    var last := lines[|lines| - 1];
    if |lines| > 1 {
      var before := Join(lines[..|lines| - 1]) + [NL];
      assert Join(lines) == before + last;
      assert (before + last)[|before + last| - 1] == last[|last| - 1];
    }
  }

  /** Joined lines split into the same lines, unless the last one is empty. */
  lemma SplitOfJoin(lines: seq<Text>)
    requires Plain(lines) && lines != [] && lines[|lines| - 1] != []
    ensures SplitLines(Join(lines)) == lines
  {
    var last := lines[|lines| - 1];
    PiecesJoin(lines);
    JoinLast(lines);
    assert last in lines && last[|last| - 1] in last;
  }

  lemma {:induction false} RepeatBytes(line: Text, n: nat)
    requires Bytes(line) <= 58 && n > 0
    ensures Bytes(Join(Repeat(line, n))) <= 59 * n - 1
  {
    if n == 1 {
      assert Repeat(line, 1) == [line];
    } else {
      RepeatBytes(line, n - 1);
      JoinBytes(Repeat(line, n - 1), line);
    }
  }

  lemma RepeatPart(line: Text, n: nat, from: nat, count: nat)
    requires from + count <= n
    ensures Repeat(line, n)[from..from + count] == Repeat(line, count)
  {
  }

  lemma {:induction false} RepeatMatches(line: Text, n: nat, diagnostic: Text -> bool)
    requires diagnostic(line)
    ensures Matching(Repeat(line, n), diagnostic) == Repeat(line, n)
    decreases n
  {
    if n > 0 {
      RepeatPart(line, n, 1, n - 1);
      assert Repeat(line, n)[1..] == Repeat(line, n - 1);
      assert Repeat(line, n) == [line] + Repeat(line, n - 1);
      RepeatMatches(line, n - 1, diagnostic);
    }
  }

  lemma RepeatSplits(line: Text, n: nat)
    requires OneLine(line) && n > 0
    ensures SplitLines(Join(Repeat(line, n))) == Repeat(line, n) && Plain(Repeat(line, n))
  {
    SplitOfJoin(Repeat(line, n));
  }

  lemma WholeFront(text: Text, line: Text, n: nat, maxLines: nat, maxBytes: nat, k: nat)
    requires Bytes(line) <= 58 && 0 < maxLines < n && 59 * maxLines <= maxBytes
    requires SplitLines(text) == Repeat(line, n) && Front(text, maxLines, maxBytes, k)
    ensures k == maxLines && Repeat(line, n)[..k] == Repeat(line, k)
  {
    if k < maxLines {
      assert Repeat(line, n)[..k + 1] == Repeat(line, k + 1);
      RepeatBytes(line, k + 1);
    }
  }

  lemma RepeatFront(text: Text, line: Text, n: nat, maxLines: nat, maxBytes: nat, head: Text)
    requires OneLine(line) && Bytes(line) <= 58 && 0 < maxLines < n && 59 * maxLines <= maxBytes
    requires SplitLines(text) == Repeat(line, n) && IsFront(text, maxLines, maxBytes, head)
    ensures head != [] && Breaks(head) == maxLines - 1
  {
    var k: nat :| Front(text, maxLines, maxBytes, k) && head == Join(SplitLines(text)[..k]);
    WholeFront(text, line, n, maxLines, maxBytes, k);
    RepeatBreaks(line, k);
  }

  lemma RepeatBreaks(line: Text, k: nat)
    requires OneLine(line) && k > 0
    ensures Join(Repeat(line, k)) != [] && Breaks(Join(Repeat(line, k))) == k - 1
  {
    RepeatSplits(line, k);
    JoinBreaks(Repeat(line, k));
  }

  /** Fewer lines than allowed would leave room for one more. */
  lemma WholeEnd(line: Text, n: nat, maxLines: nat, maxBytes: nat, k: nat)
    requires Bytes(line) <= 58 && 0 < maxLines < n && 59 * maxLines <= maxBytes && 0 < k <= maxLines
    requires k < maxLines ==> Overflows(Repeat(line, n), maxBytes, k)
    ensures k == maxLines
  {
    if k < maxLines {
      assert Repeat(line, n)[n - k - 1..] == Repeat(line, k + 1);
      RepeatBytes(line, k + 1);
    }
  }

  lemma RepeatEnding(text: Text, line: Text, n: nat, maxLines: nat, maxBytes: nat, tail: Text)
    requires OneLine(line) && Bytes(line) <= 58 && 0 < maxLines < n && 59 * maxLines <= maxBytes
    requires SplitLines(text) == Repeat(line, n) && IsEnding(text, maxLines, maxBytes, tail)
    ensures tail != [] && Breaks(tail) == maxLines - 1
  {
    var k: nat :| Ending(SplitLines(text), maxLines, maxBytes, k, tail);
    RepeatLast(line, n, k);
    WholeEnd(line, n, maxLines, maxBytes, k);
    RepeatBreaks(line, k);
  }

  lemma RepeatLast(line: Text, n: nat, k: nat)
    requires 0 < n && k <= n
    ensures Repeat(line, n)[n - 1] == line && Repeat(line, n)[n - k..] == Repeat(line, k)
  {
  }

  /** Failure output of more lines than fit, each of at most 58 bytes: whatever
      the separator and the notice, exactly 400 lines are emitted. */
  lemma BashLinesReached(line: Text, n: nat, diagnostic: Text -> bool, separator: Text, notice: Text, parts: (Text, Text, Text))
    requires OneLine(line) && Bytes(line) <= 58 && diagnostic(line) && n > BASH.maxLines
    requires Separator(separator) && OneLine(notice)
    requires Sectioned(Join(Repeat(line, n)), diagnostic, 396, 23552, parts)
    ensures LineCount(Emitted(Laid(parts, separator), notice)) == BASH.maxLines
  {
    var text := Join(Repeat(line, n));
    BashShares();
    RepeatSplits(line, n);
    RepeatMatches(line, n, diagnostic);
    RepeatFront(text, line, n, 79, 4710, parts.0);
    RepeatFront(text, line, n, 79, 4710, parts.1);
    RepeatEnding(text, line, n, 238, 14132, parts.2);
    BashLinesTight(parts.0, parts.1, parts.2, separator, notice);
  }
}
