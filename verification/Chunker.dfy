/** corpus/chunker.py: what the four strategies cut a document into. Each loop of
    the source is a method; the function beside it says what the loop computes,
    with the tail a chunk carries over kept apart from what it adds. */
module Chunker {

  // str.isspace, and \s of the regular expressions.
  predicate IsSpace(c: char) {
    var n := c as int;
    || 9 <= n <= 13 || 28 <= n <= 32 || n == 0x85 || n == 0xA0 || n == 0x1680 || 0x2000 <= n <= 0x200A
    || n == 0x2028 || n == 0x2029 || n == 0x202F || n == 0x205F || n == 0x3000
  }

  function LeftStripped(s: string): string {
    if s != "" && IsSpace(s[0]) then LeftStripped(s[1..]) else s
  }

  function RightStripped(s: string): string {
    if s != "" && IsSpace(s[|s| - 1]) then RightStripped(s[..|s| - 1]) else s
  }

  function Strip(s: string): string { RightStripped(LeftStripped(s)) }

  // The characters of a text in order, white space dropped.
  function Ink(s: string): string {
    if s == "" then "" else (if IsSpace(s[0]) then "" else [s[0]]) + Ink(s[1..])
  }

  function InkAll(texts: seq<string>): string {
    if texts == [] then "" else Ink(texts[0]) + InkAll(texts[1..])
  }

  lemma {:induction false} InkConcat(a: string, b: string)
    ensures Ink(a + b) == Ink(a) + Ink(b)
  {
    if a == "" {
      assert a + b == b;
    } else {
      assert (a + b)[1..] == a[1..] + b;
      InkConcat(a[1..], b);
    }
  }

  lemma {:induction false} InkAllConcat(a: seq<string>, b: seq<string>)
    ensures InkAll(a + b) == InkAll(a) + InkAll(b)
  {
    if a == [] {
      assert a + b == b;
    } else {
      assert (a + b)[1..] == a[1..] + b;
      InkAllConcat(a[1..], b);
    }
  }

  lemma InkOne(s: string)
    ensures InkAll([s]) == Ink(s)
  {
    assert [s][1..] == [];
  }

  lemma {:induction false} InkLeftStripped(s: string)
    ensures Ink(LeftStripped(s)) == Ink(s) && |LeftStripped(s)| <= |s|
  {
    if s != "" && IsSpace(s[0]) {
      InkLeftStripped(s[1..]);
    }
  }

  lemma {:induction false} InkRightStripped(s: string)
    ensures Ink(RightStripped(s)) == Ink(s) && |RightStripped(s)| <= |s|
  {
    if s != "" && IsSpace(s[|s| - 1]) {
      var n := |s| - 1;
      InkRightStripped(s[..n]);
      InkConcat(s[..n], s[n..]);
      InkOneSpace(s[n]);
      assert s == s[..n] + [s[n]] && s[n..] == [s[n]];
    }
  }

  lemma InkOneSpace(c: char)
    requires IsSpace(c)
    ensures Ink([c]) == ""
  {
    assert [c][1..] == "";
  }

  lemma InkStrip(s: string)
    ensures Ink(Strip(s)) == Ink(s) && |Strip(s)| <= |s|
  {
    InkLeftStripped(s);
    InkRightStripped(LeftStripped(s));
  }

  lemma {:induction false} InkOfSpaces(s: string)
    requires forall k :: 0 <= k < |s| ==> IsSpace(s[k])
    ensures Ink(s) == ""
  {
    if s != "" {
      InkOfSpaces(s[1..]);
    }
  }

  // ---- splitting on a pattern ----

  // \n{2,} between paragraphs; white space behind . ! or ? between sentences.
  datatype Boundary = BlankLine | SentenceEnd

  datatype Cut = Cut(from: nat, to: nat) | NoCut

  predicate Separates(kind: Boundary, c: char) {
    if kind.BlankLine? then c == '\n' else IsSpace(c)
  }

  predicate CutsAt(kind: Boundary, text: string, i: nat)
    requires i < |text|
  {
    && Separates(kind, text[i])
    && match kind
       case BlankLine => i + 1 < |text| && text[i + 1] == '\n'
       case SentenceEnd => i > 0 && (text[i - 1] == '.' || text[i - 1] == '!' || text[i - 1] == '?')
  }

  function RunEnd(kind: Boundary, text: string, i: nat): (e: nat)
    requires i <= |text|
    ensures i <= e <= |text| && forall k :: i <= k < e ==> Separates(kind, text[k])
    ensures e < |text| ==> !Separates(kind, text[e])
    decreases |text| - i
  {
    if i < |text| && Separates(kind, text[i]) then RunEnd(kind, text, i + 1) else i
  }

  function NextCut(kind: Boundary, text: string, i: nat): (cut: Cut)
    requires i <= |text|
    ensures cut.Cut? ==> i <= cut.from < cut.to <= |text|
    ensures cut.Cut? ==> CutsAt(kind, text, cut.from) && forall k :: cut.from <= k < cut.to ==> Separates(kind, text[k])
    ensures forall k :: i <= k < (if cut.Cut? then cut.from else |text|) ==> !CutsAt(kind, text, k)
    decreases |text| - i
  {
    if i == |text| then NoCut
    else if CutsAt(kind, text, i) then Cut(i, RunEnd(kind, text, i + 1))
    else NextCut(kind, text, i + 1)
  }

  function Split(kind: Boundary, text: string): (parts: seq<string>)
    ensures parts != []
    decreases |text|
  {
    match NextCut(kind, text, 0)
    case NoCut => [text]
    case Cut(from, to) => [text[..from]] + Split(kind, text[to..])
  }

  lemma ThreeParts(text: string, from: nat, to: nat)
    requires from <= to <= |text|
    ensures text == text[..from] + text[from..to] + text[to..]
  {
  }

  lemma InkCut(text: string, from: nat, to: nat)
    requires from <= to <= |text| && forall k :: from <= k < to ==> IsSpace(text[k])
    ensures Ink(text) == Ink(text[..from]) + Ink(text[to..])
  {
    hide Ink, IsSpace;
    var glue := text[from..to];
    forall k | 0 <= k < |glue| ensures IsSpace(glue[k]) {
      assert glue[k] == text[from + k];
    }
    ThreeParts(text, from, to);
    InkGlued(text[..from], glue, text[to..]);
  }

  lemma InkAllCons(first: string, rest: seq<string>)
    ensures InkAll([first] + rest) == Ink(first) + InkAll(rest)
  {
    assert ([first] + rest)[1..] == rest;
  }

  lemma {:induction false} InkSplit(kind: Boundary, text: string)
    ensures InkAll(Split(kind, text)) == Ink(text)
    decreases |text|
  {
    hide Ink, InkAll;
    match NextCut(kind, text, 0)
    case NoCut => InkOne(text);
    case Cut(from, to) =>
      InkSplit(kind, text[to..]);
      InkCut(text, from, to);
      InkAllCons(text[..from], Split(kind, text[to..]));
  }

  // [p.strip() for p in parts if p.strip()]
  function Stripped(parts: seq<string>): seq<string> {
    if parts == [] then []
    else (if Strip(parts[0]) == "" then [] else [Strip(parts[0])]) + Stripped(parts[1..])
  }

  lemma {:induction false} InkStripped(parts: seq<string>)
    ensures InkAll(Stripped(parts)) == InkAll(parts)
  {
    if parts != [] {
      InkStripped(parts[1..]);
      InkStrip(parts[0]);
      InkAllCons(Strip(parts[0]), Stripped(parts[1..]));
      assert [] + Stripped(parts[1..]) == Stripped(parts[1..]);
    }
  }

  function ParagraphsOf(text: string): seq<string> {
    Stripped(Split(BlankLine, text))
  }

  // ---- oversized segments ----

  function LastSpace(text: string, end: nat): int
    requires end <= |text|
    ensures -1 <= LastSpace(text, end) < end
  {
    if end == 0 then -1 else if text[end - 1] == ' ' then end - 1 else LastSpace(text, end - 1)
  }

  function SplitPoint(text: string, size: nat): (at: nat)
    requires 0 < size < |text|
    ensures 0 < at <= size
  {
    if LastSpace(text, size) <= 0 then size else LastSpace(text, size)
  }

  function HardSplit(text: string, size: nat): seq<string>
    requires size > 0
    decreases |text|
  {
    if |text| <= size then (if text == "" then [] else [text])
    else
      var at := SplitPoint(text, size);
      HardSplitShrinks(text, size);
      [Strip(text[..at])] + HardSplit(Strip(text[at..]), size)
  }

  // Each round of the hard split leaves a strictly shorter text.
  lemma HardSplitShrinks(text: string, size: nat)
    requires 0 < size < |text|
    ensures |Strip(text[SplitPoint(text, size)..])| < |text|
  {
    InkStrip(text[SplitPoint(text, size)..]);
  }

  lemma {:induction false} HardSplitIs(text: string, size: nat)
    requires size > 0
    ensures InkAll(HardSplit(text, size)) == Ink(text)
    ensures forall part :: part in HardSplit(text, size) ==> |part| <= size
    decreases |text|
  {
    hide Strip, SplitPoint;
    if |text| <= size {
      EmptyInk();
      if text != "" {
        InkOne(text);
      }
    } else {
      var at := SplitPoint(text, size);
      HardSplitShrinks(text, size);
      HardSplitIs(Strip(text[at..]), size);
      InkStrip(text[..at]);
      InkStrip(text[at..]);
      InkConcat(text[..at], text[at..]);
      InkAllCons(Strip(text[..at]), HardSplit(Strip(text[at..]), size));
      assert text == text[..at] + text[at..];
    }
  }

  lemma EmptyInk()
    ensures Ink("") == "" && InkAll([]) == ""
  {
  }

  // Sentences joined by single blanks while they fit.
  function SentencesJoined(current: string, rest: seq<string>, size: nat): seq<string>
    decreases |rest|
  {
    if rest == [] then (if Strip(current) == "" then [] else [current])
    else if |current| + 1 + |rest[0]| <= size then SentencesJoined(current + " " + rest[0], rest[1..], size)
    else [current] + SentencesJoined(rest[0], rest[1..], size)
  }

  function Larger(a: nat, b: nat): nat { if a < b then b else a }

  lemma {:induction false} SentencesJoinedFit(current: string, rest: seq<string>, size: nat, longest: nat)
    requires |current| <= Larger(size, longest) && forall s :: s in rest ==> |s| <= longest
    ensures forall part :: part in SentencesJoined(current, rest, size) ==> |part| <= Larger(size, longest)
    decreases |rest|
  {
    if rest == [] {
    } else if |current| + 1 + |rest[0]| <= size {
      SentencesJoinedFit(current + " " + rest[0], rest[1..], size, longest);
    } else {
      SentencesJoinedFit(rest[0], rest[1..], size, longest);
    }
  }

  lemma InkGlued(a: string, glue: string, b: string)
    requires forall k :: 0 <= k < |glue| ==> IsSpace(glue[k])
    ensures Ink(a + glue + b) == Ink(a) + Ink(b)
  {
    hide Ink, IsSpace;
    InkConcat(a + glue, b);
    InkConcat(a, glue);
    InkOfSpaces(glue);
  }

  lemma {:induction false} InkSentencesJoined(current: string, rest: seq<string>, size: nat)
    ensures InkAll(SentencesJoined(current, rest, size)) == Ink(current) + InkAll(rest)
    decreases |rest|
  {
    hide Ink, Strip;
    if rest == [] {
      InkBlank(current);
      InkOne(current);
    } else if |current| + 1 + |rest[0]| <= size {
      InkSentencesJoined(current + " " + rest[0], rest[1..], size);
      InkGlued(current, " ", rest[0]);
    } else {
      InkSentencesJoined(rest[0], rest[1..], size);
      InkAllCons(current, SentencesJoined(rest[0], rest[1..], size));
    }
  }

  lemma InkBlank(s: string)
    ensures Strip(s) == "" ==> Ink(s) == ""
  {
    InkStrip(s);
  }

  function SplitLarge(text: string, size: nat): seq<string>
    requires size > 0
  {
    var sentences := Split(SentenceEnd, text);
    if |sentences| <= 1 then HardSplit(text, size) else SentencesJoined(sentences[0], sentences[1..], size)
  }

  // No sentence of the text is longer than this.
  predicate SentencesWithin(text: string, longest: nat) {
    forall s | s in Split(SentenceEnd, text) :: |s| <= longest
  }

  lemma SplitLargeIs(text: string, size: nat, longest: nat)
    requires size > 0 && SentencesWithin(text, longest)
    ensures InkAll(SplitLarge(text, size)) == Ink(text)
    ensures forall part :: part in SplitLarge(text, size) ==> |part| <= Larger(size, longest)
    ensures |Split(SentenceEnd, text)| == 1 ==> forall part :: part in SplitLarge(text, size) ==> |part| <= size
  {
    var sentences := Split(SentenceEnd, text);
    InkSplit(SentenceEnd, text);
    if |sentences| <= 1 {
      HardSplitIs(text, size);
    } else {
      SentencesJoinedFit(sentences[0], sentences[1..], size, longest);
      InkSentencesJoined(sentences[0], sentences[1..], size);
    }
  }

  method SplitLargeSegment(text: string, size: nat) returns (result: seq<string>)
    requires size > 0
    ensures result == SplitLarge(text, size)
  {
    var sentences := Split(SentenceEnd, text);
    result := [];
    if |sentences| <= 1 {
      var left := text;
      while |left| > size
        invariant result + HardSplit(left, size) == HardSplit(text, size)
        decreases |left|
      {
        var at := SplitPoint(left, size);
        HardSplitShrinks(left, size);
        ghost var whole := left;
        result := result + [Strip(left[..at])];
        left := Strip(left[at..]);
        assert HardSplit(whole, size) == [Strip(whole[..at])] + HardSplit(left, size);
      }
      if left != "" {
        result := result + [left];
      }
      return;
    }
    var current := sentences[0];
    for i := 1 to |sentences|
      invariant result + SentencesJoined(current, sentences[i..], size) == SplitLarge(text, size)
    {
      var s := sentences[i];
      assert sentences[i..][0] == s && sentences[i..][1..] == sentences[i + 1..];
      if |current| + 1 + |s| <= size {
        current := current + " " + s;
      } else {
        result := result + [current];
        current := s;
      }
    }
    if Strip(current) != "" {
      result := result + [current];
    }
  }

  // ---- merging segments into chunks ----

  // A chunk: the tail it carries over from the chunk before, and what it adds.
  datatype Piece = Piece(tail: string, body: string)

  function TextOf(p: Piece): string {
    if p.tail == "" then p.body else p.tail + "\n\n" + p.body
  }

  function Texts(pieces: seq<Piece>): seq<string> {
    if pieces == [] then [] else [TextOf(pieces[0])] + Texts(pieces[1..])
  }

  function Bodies(pieces: seq<Piece>): seq<string> {
    if pieces == [] then [] else [pieces[0].body] + Bodies(pieces[1..])
  }

  function FirstSpace(text: string, i: nat): nat
    requires i <= |text|
    ensures i <= FirstSpace(text, i) <= |text|
    decreases |text| - i
  {
    if i < |text| && text[i] != ' ' then FirstSpace(text, i + 1) else i
  }

  // The overlap carried into the next chunk, from a word boundary on; "" for none.
  function Tail(text: string, overlap: int): string {
    if 0 < overlap < |text| then
      var tail := text[|text| - overlap..];
      var space := FirstSpace(tail, 0);
      var word := if space < |tail| then tail[space + 1..] else tail;
      if Strip(word) == "" then "" else word
    else ""
  }

  function Merged(current: Piece, rest: seq<string>, size: nat, overlap: int): seq<Piece>
    decreases |rest|
  {
    if rest == [] then (if Strip(TextOf(current)) == "" then [] else [current])
    else if |TextOf(current)| + 2 + |rest[0]| <= size then
      Merged(current.(body := current.body + "\n\n" + rest[0]), rest[1..], size, overlap)
    else [current] + Merged(Piece(Tail(TextOf(current), overlap), rest[0]), rest[1..], size, overlap)
  }

  function Expanded(segments: seq<string>, size: nat): seq<string>
    requires size > 0
  {
    if segments == [] then []
    else
      var last := segments[|segments| - 1];
      Expanded(segments[..|segments| - 1], size) + if |last| > size then SplitLarge(last, size) else [last]
  }

  function MergedSegments(segments: seq<string>, size: nat, overlap: int): seq<Piece>
    requires size > 0
  {
    var expanded := Expanded(segments, size);
    if expanded == [] then [] else Merged(Piece("", expanded[0]), expanded[1..], size, overlap)
  }

  function ParagraphPieces(text: string, size: nat, overlap: int): seq<Piece>
    requires size > 0
  {
    MergedSegments(ParagraphsOf(text), size, overlap)
  }

  method ExpandSegments(segments: seq<string>, size: nat) returns (expanded: seq<string>)
    requires size > 0
    ensures expanded == Expanded(segments, size)
  {
    expanded := [];
    for i := 0 to |segments|
      invariant expanded == Expanded(segments[..i], size)
    {
      assert segments[..i + 1][..i] == segments[..i];
      if |segments[i]| > size {
        var parts := SplitLargeSegment(segments[i], size);
        expanded := expanded + parts;
      } else {
        expanded := expanded + [segments[i]];
      }
    }
    assert segments[..|segments|] == segments;
  }

  method MergeSegments(segments: seq<string>, size: nat, overlap: int) returns (chunks: seq<string>)
    requires size > 0
    ensures chunks == Texts(MergedSegments(segments, size, overlap))
  {
    hide Tail, Strip, Merged, Texts, Expanded;
    MergeEnds(segments, size, overlap);
    if segments == [] { return []; }
    var expanded := ExpandSegments(segments, size);
    if expanded == [] { return []; }
    chunks := [];
    var current := expanded[0];
    ghost var piece := Piece("", current);
    ghost var all := Texts(Merged(piece, expanded[1..], size, overlap));
    for i := 1 to |expanded|
      invariant current == TextOf(piece)
      invariant chunks + Texts(Merged(piece, expanded[i..], size, overlap)) == all
    {
      var seg := expanded[i];
      ghost var rest := expanded[i + 1..];
      assert expanded[i..] == [seg] + rest;
      if |current| + 2 + |seg| <= size {
        MergeExtends(piece, seg, rest, size, overlap);
        piece := piece.(body := piece.body + "\n\n" + seg);
        current := current + "\n\n" + seg;
      } else {
        MergeBreaks(piece, seg, rest, size, overlap);
        chunks := chunks + [current];
        var tail := Tail(current, overlap);
        piece := Piece(tail, seg);
        current := if tail != "" then tail + "\n\n" + seg else seg;
      }
    }
    LastPiece(piece, size, overlap);
    assert expanded[|expanded|..] == [];
    if Strip(current) != "" {
      chunks := chunks + [current];
    }
  }

  lemma MergeEnds(segments: seq<string>, size: nat, overlap: int)
    requires size > 0
    ensures Texts([]) == [] && (segments == [] ==> Expanded(segments, size) == [])
  {
  }

  lemma LastPiece(piece: Piece, size: nat, overlap: int)
    ensures Texts(Merged(piece, [], size, overlap)) == if Strip(TextOf(piece)) == "" then [] else [TextOf(piece)]
  {
    assert Texts([piece]) == [TextOf(piece)];
  }

  lemma MergeExtends(piece: Piece, seg: string, rest: seq<string>, size: nat, overlap: int)
    requires |TextOf(piece)| + 2 + |seg| <= size
    ensures var longer := piece.(body := piece.body + "\n\n" + seg);
            && TextOf(longer) == TextOf(piece) + "\n\n" + seg
            && Merged(piece, [seg] + rest, size, overlap) == Merged(longer, rest, size, overlap)
  {
    hide Tail, Strip;
    assert ([seg] + rest)[1..] == rest;
  }

  lemma MergeBreaks(piece: Piece, seg: string, rest: seq<string>, size: nat, overlap: int)
    requires |TextOf(piece)| + 2 + |seg| > size
    ensures Texts(Merged(piece, [seg] + rest, size, overlap))
         == [TextOf(piece)] + Texts(Merged(Piece(Tail(TextOf(piece), overlap), seg), rest, size, overlap))
  {
    hide Tail, Strip, TextOf;
    assert ([seg] + rest)[1..] == rest;
    var more := Merged(Piece(Tail(TextOf(piece), overlap), seg), rest, size, overlap);
    assert ([piece] + more)[1..] == more;
  }

  // ---- what merging keeps ----

  predicate IsSuffix(s: string, text: string) {
    |s| <= |text| && s == text[|text| - |s|..]
  }

  // A chunk carries nothing, or a tail of the chunk before it.
  predicate Carries(pieces: seq<Piece>, i: nat, overlap: int)
    requires i < |pieces|
  {
    pieces[i].tail == "" ||
    (i > 0 && IsSuffix(pieces[i].tail, TextOf(pieces[i - 1])) && |pieces[i].tail| <= overlap)
  }

  predicate WellCarried(pieces: seq<Piece>, overlap: int) {
    forall i :: 0 <= i < |pieces| ==> Carries(pieces, i, overlap)
  }

  lemma TailIsSuffix(text: string, overlap: int)
    ensures Tail(text, overlap) == "" || (IsSuffix(Tail(text, overlap), text) && |Tail(text, overlap)| <= overlap)
  {
    hide Strip;
    if 0 < overlap < |text| {
      var tail := text[|text| - overlap..];
      var space := FirstSpace(tail, 0);
      if space < |tail| {
        assert tail[space + 1..] == text[|text| - overlap + space + 1..];
      }
    }
  }

  lemma {:induction false} InkExpanded(segments: seq<string>, size: nat)
    requires size > 0
    ensures InkAll(Expanded(segments, size)) == InkAll(segments)
  {
    hide Ink;
    if segments != [] {
      var n := |segments| - 1;
      var last := segments[n];
      InkExpanded(segments[..n], size);
      SplitLargeIs(last, size, Longest(Split(SentenceEnd, last)));
      InkOne(last);
      InkAllConcat(segments[..n], [last]);
      InkAllConcat(Expanded(segments[..n], size), if |last| > size then SplitLarge(last, size) else [last]);
      assert segments == segments[..n] + [last];
    }
  }

  function Longest(parts: seq<string>): (n: nat)
    ensures forall s :: s in parts ==> |s| <= n
  {
    if parts == [] then 0 else Larger(|parts[0]|, Longest(parts[1..]))
  }

  lemma {:induction false} InkMerged(current: Piece, rest: seq<string>, size: nat, overlap: int)
    ensures InkAll(Bodies(Merged(current, rest, size, overlap))) == Ink(current.body) + InkAll(rest)
    decreases |rest|
  {
    hide Ink, Strip, Tail;
    if rest == [] {
      InkBlankPiece(current);
      InkOne(current.body);
      assert Bodies([current]) == [current.body];
    } else if |TextOf(current)| + 2 + |rest[0]| <= size {
      InkMerged(current.(body := current.body + "\n\n" + rest[0]), rest[1..], size, overlap);
      InkGlued(current.body, "\n\n", rest[0]);
    } else {
      var more := Merged(Piece(Tail(TextOf(current), overlap), rest[0]), rest[1..], size, overlap);
      InkMerged(Piece(Tail(TextOf(current), overlap), rest[0]), rest[1..], size, overlap);
      InkAllCons(current.body, Bodies(more));
      assert ([current] + more)[1..] == more;
    }
  }

  lemma InkBlankPiece(p: Piece)
    ensures Strip(TextOf(p)) == "" ==> Ink(p.body) == ""
  {
    hide Ink, Strip;
    InkBlank(TextOf(p));
    InkGlued(p.tail, "\n\n", p.body);
  }

  // The pieces are the current one, grown, and others that carry on from it.
  lemma {:induction false} MergedCarries(current: Piece, rest: seq<string>, size: nat, overlap: int)
    ensures var pieces := Merged(current, rest, size, overlap);
            && (pieces != [] ==> pieces[0].tail == current.tail)
            && forall i :: 1 <= i < |pieces| ==> Carries(pieces, i, overlap)
    decreases |rest|
  {
    hide Strip, Tail, TextOf, IsSuffix;
    if rest == [] {
    } else if |TextOf(current)| + 2 + |rest[0]| <= size {
      MergedCarries(current.(body := current.body + "\n\n" + rest[0]), rest[1..], size, overlap);
    } else {
      var tail := Tail(TextOf(current), overlap);
      var more := Merged(Piece(tail, rest[0]), rest[1..], size, overlap);
      MergedCarries(Piece(tail, rest[0]), rest[1..], size, overlap);
      TailIsSuffix(TextOf(current), overlap);
      var pieces := [current] + more;
      forall i | 1 <= i < |pieces| ensures Carries(pieces, i, overlap) {
        assert pieces[i] == more[i - 1];
        assert i > 1 ==> pieces[i - 1] == more[i - 2] && Carries(more, i - 1, overlap);
      }
    }
  }

  function Room(size: nat, longest: nat, overlap: int): nat {
    Larger(size, longest) + (if overlap > 0 then overlap else 0) + 2
  }

  lemma {:induction false} MergedFits(current: Piece, rest: seq<string>, size: nat, overlap: int, longest: nat)
    requires |TextOf(current)| <= Room(size, longest, overlap)
    requires forall s :: s in rest ==> |s| <= Larger(size, longest)
    ensures forall p :: p in Merged(current, rest, size, overlap) ==> |TextOf(p)| <= Room(size, longest, overlap)
    decreases |rest|
  {
    hide Strip, Tail;
    if rest == [] {
    } else if |TextOf(current)| + 2 + |rest[0]| <= size {
      MergedFits(current.(body := current.body + "\n\n" + rest[0]), rest[1..], size, overlap, longest);
    } else {
      TailIsSuffix(TextOf(current), overlap);
      MergedFits(Piece(Tail(TextOf(current), overlap), rest[0]), rest[1..], size, overlap, longest);
    }
  }

  // ---- no cut is made too early ----

  predicate StartsWith(text: string, prefix: string) {
    |prefix| <= |text| && text[..|prefix|] == prefix
  }

  // What comes after `done` begins with a part that did not fit behind it.
  ghost predicate Overflows(done: string, next: string, parts: seq<string>, glue: nat, size: nat) {
    exists part :: part in parts && StartsWith(next, part) && |done| + glue + |part| > size
  }

  lemma {:induction false} MergedIsGreedy(
    current: Piece, rest: seq<string>, size: nat, overlap: int, parts: seq<string>)
    requires forall s :: s in rest ==> s in parts
    requires exists part :: part in parts && StartsWith(current.body, part)
    ensures var pieces := Merged(current, rest, size, overlap);
            && (pieces != [] ==> StartsWith(pieces[0].body, current.body))
            && forall i :: 0 <= i < |pieces| - 1 ==>
              Overflows(TextOf(pieces[i]), pieces[i + 1].body, parts, 2, size)
    decreases |rest|
  {
    hide Strip, Tail, TextOf;
    if rest == [] {
    } else if |TextOf(current)| + 2 + |rest[0]| <= size {
      var longer := current.(body := current.body + "\n\n" + rest[0]);
      assert StartsWith(longer.body, current.body);
      var part :| part in parts && StartsWith(current.body, part);
      PrefixOfPrefix(longer.body, current.body, part);
      MergedIsGreedy(longer, rest[1..], size, overlap, parts);
      var pieces := Merged(longer, rest[1..], size, overlap);
      if pieces != [] {
        PrefixOfPrefix(pieces[0].body, longer.body, current.body);
      }
    } else {
      var next := Piece(Tail(TextOf(current), overlap), rest[0]);
      var more := Merged(next, rest[1..], size, overlap);
      assert rest[0] in parts && StartsWith(next.body, rest[0]);
      MergedIsGreedy(next, rest[1..], size, overlap, parts);
      forall i | 0 <= i < |more|
        ensures Overflows(TextOf(([current] + more)[i]), ([current] + more)[i + 1].body, parts, 2, size)
      {
        assert i > 0 ==> ([current] + more)[i] == more[i - 1];
      }
    }
  }

  lemma PrefixOfPrefix(text: string, middle: string, prefix: string)
    requires StartsWith(text, middle) && StartsWith(middle, prefix)
    ensures StartsWith(text, prefix)
  {
    assert text[..|prefix|] == text[..|middle|][..|prefix|];
  }

  // A paragraph chunk ends only where the next segment no longer fits.
  lemma ChunksAreFull(segments: seq<string>, size: nat, overlap: int)
    requires size > 0
    ensures var pieces := MergedSegments(segments, size, overlap);
            forall i :: 0 <= i < |pieces| - 1 ==>
              Overflows(TextOf(pieces[i]), pieces[i + 1].body, Expanded(segments, size), 2, size)
  {
    hide Merged, Expanded, TextOf;
    var expanded := Expanded(segments, size);
    if expanded != [] {
      assert expanded[0] in expanded && StartsWith(expanded[0], expanded[0]);
      MergedIsGreedy(Piece("", expanded[0]), expanded[1..], size, overlap, expanded);
    }
  }

  // Nor does a run of joined sentences end before the next one overflows it.
  lemma {:induction false} SentencesAreFull(current: string, rest: seq<string>, size: nat, parts: seq<string>)
    requires forall s :: s in rest ==> s in parts
    ensures var joined := SentencesJoined(current, rest, size);
            && (joined != [] ==> StartsWith(joined[0], current))
            && forall i :: 0 <= i < |joined| - 1 ==> Overflows(joined[i], joined[i + 1], parts, 1, size)
    decreases |rest|
  {
    hide Strip;
    if rest == [] {
    } else if |current| + 1 + |rest[0]| <= size {
      var longer := current + " " + rest[0];
      SentencesAreFull(longer, rest[1..], size, parts);
      var joined := SentencesJoined(longer, rest[1..], size);
      if joined != [] {
        assert StartsWith(longer, current);
        PrefixOfPrefix(joined[0], longer, current);
      }
    } else {
      var more := SentencesJoined(rest[0], rest[1..], size);
      SentencesAreFull(rest[0], rest[1..], size, parts);
      forall i | 0 <= i < |more| ensures Overflows(([current] + more)[i], ([current] + more)[i + 1], parts, 1, size) {
        assert i > 0 ==> ([current] + more)[i] == more[i - 1];
        assert rest[0] in parts;
      }
    }
  }

  // The hard split cuts at the last blank that leaves something before it, or
  // at the limit when there is none.
  lemma SplitPointIs(text: string, size: nat)
    requires 0 < size < |text|
    ensures var at := SplitPoint(text, size);
            && (forall k :: at < k < size ==> text[k] != ' ')
            && (text[at] == ' ' || (at == size && forall k :: 0 < k < size ==> text[k] != ' '))
  {
    LastSpaceIs(text, size);
  }

  lemma {:induction false} LastSpaceIs(text: string, end: nat)
    requires end <= |text|
    ensures var at := LastSpace(text, end);
            (at >= 0 ==> text[at] == ' ') && forall k :: at < k < end ==> text[k] != ' '
  {
    if end > 0 && text[end - 1] != ' ' {
      LastSpaceIs(text, end - 1);
    }
  }

  // A carried tail starts behind the first blank of the overlap window, or is
  // the whole window; nothing is carried only if that would be white space.
  lemma TailStartsAtAWord(text: string, overlap: int)
    requires 0 < overlap < |text|
    ensures var window := text[|text| - overlap..];
            if Tail(text, overlap) == "" then
              exists k :: 0 <= k <= |window| && Ink(window[k..]) == "" && ' ' !in window[..if k > 0 then k - 1 else 0]
            else
              exists k :: 0 <= k <= |window| && Tail(text, overlap) == window[k..]
                && (k == 0 ==> ' ' !in window) && (k > 0 ==> window[k - 1] == ' ' && ' ' !in window[..k - 1])
  {
    var window := text[|text| - overlap..];
    var space := FirstSpace(window, 0);
    FirstSpaceIs(window, 0);
    var k := if space < |window| then space + 1 else 0;
    InkBlank(window[k..]);
    assert window[0..] == window;
    assert k > 0 ==> window[k - 1] == ' ';
    assert ' ' !in window[..if k > 0 then k - 1 else 0];
  }

  lemma {:induction false} FirstSpaceIs(text: string, i: nat)
    requires i <= |text|
    ensures var at := FirstSpace(text, i);
            (at < |text| ==> text[at] == ' ') && forall k :: i <= k < at ==> text[k] != ' '
    decreases |text| - i
  {
    if i < |text| && text[i] != ' ' {
      FirstSpaceIs(text, i + 1);
    }
  }

  // ---- the paragraph strategy ----

  // Dropping white space and carried tails, a strategy's pieces are its text.
  predicate Conserves(pieces: seq<Piece>, text: string, overlap: int) {
    && InkAll(Bodies(pieces)) == Ink(text)
    && WellCarried(pieces, overlap)
    && (pieces != [] ==> pieces[0].tail == "")
  }

  lemma MergedConserves(segments: seq<string>, size: nat, overlap: int)
    requires size > 0
    ensures WellCarried(MergedSegments(segments, size, overlap), overlap)
    ensures MergedSegments(segments, size, overlap) != [] ==> MergedSegments(segments, size, overlap)[0].tail == ""
    ensures InkAll(Bodies(MergedSegments(segments, size, overlap))) == InkAll(segments)
  {
    hide Ink, Merged, Carries, Expanded;
    var expanded := Expanded(segments, size);
    InkExpanded(segments, size);
    if expanded != [] {
      InkMerged(Piece("", expanded[0]), expanded[1..], size, overlap);
      MergedCarries(Piece("", expanded[0]), expanded[1..], size, overlap);
      FirstCarries(MergedSegments(segments, size, overlap), overlap);
    }
  }

  lemma ParagraphsConserve(text: string, size: nat, overlap: int)
    requires size > 0
    ensures Conserves(ParagraphPieces(text, size, overlap), text, overlap)
  {
    hide Ink, InkAll, MergedSegments, WellCarried, Split, Stripped;
    InkSplit(BlankLine, text);
    InkStripped(Split(BlankLine, text));
    MergedConserves(ParagraphsOf(text), size, overlap);
  }

  lemma FirstCarries(pieces: seq<Piece>, overlap: int)
    requires pieces != [] ==> pieces[0].tail == ""
    ensures pieces != [] ==> Carries(pieces, 0, overlap)
  {
  }

  lemma {:induction false} ExpandedFits(segments: seq<string>, size: nat, longest: nat)
    requires size > 0 && forall s :: s in segments ==> SentencesWithin(s, longest)
    ensures forall s :: s in Expanded(segments, size) ==> |s| <= Larger(size, longest)
  {
    hide SentencesWithin, SplitLarge;
    if segments != [] {
      ExpandedFits(segments[..|segments| - 1], size, longest);
      SplitLargeIs(segments[|segments| - 1], size, longest);
    }
  }

  // No chunk outgrows the larger of the chunk size and the longest sentence by
  // more than the overlap and a blank line.
  lemma ParagraphChunksFit(text: string, size: nat, overlap: int, longest: nat)
    requires size > 0 && forall p :: p in ParagraphsOf(text) ==> SentencesWithin(p, longest)
    ensures forall p :: p in ParagraphPieces(text, size, overlap) ==> |TextOf(p)| <= Room(size, longest, overlap)
  {
    hide SentencesWithin, Expanded, ParagraphsOf;
    var expanded := Expanded(ParagraphsOf(text), size);
    ExpandedFits(ParagraphsOf(text), size, longest);
    if expanded != [] {
      MergedFits(Piece("", expanded[0]), expanded[1..], size, overlap, longest);
    }
  }
}
