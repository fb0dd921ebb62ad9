/** What splitting, joining and merging come to: where a text is cut, which whole
    sentences and segments each part consists of, and what a chunk carries over. */
module ChunkMergings {
  import opened Chunker
  import ChunkStrategies

  // ---- trimming ----

  predicate Blank(s: string) { forall k :: 0 <= k < |s| ==> IsSpace(s[k]) }

  predicate Trimmed(s: string) { s == "" || (!IsSpace(s[0]) && !IsSpace(s[|s| - 1])) }

  // White space goes from both ends, and nothing else does.
  lemma StripIs(s: string) returns (from: nat, to: nat)
    ensures from <= to <= |s| && Strip(s) == s[from..to] && Trimmed(Strip(s))
    ensures Blank(s[..from]) && Blank(s[to..])
  {
    from := LeftIs(s);
    var left := LeftStripped(s);
    var n := RightIs(left);
    to := from + n;
    assert left[n..] == s[to..];
  }

  lemma {:induction false} LeftIs(s: string) returns (from: nat)
    ensures from <= |s| && LeftStripped(s) == s[from..] && Blank(s[..from])
    ensures from < |s| ==> !IsSpace(s[from])
  {
    from := 0;
    if s != "" && IsSpace(s[0]) {
      var rest := LeftIs(s[1..]);
      from := rest + 1;
      assert s[1..][rest..] == s[from..];
      forall k | 0 <= k < from ensures IsSpace(s[k]) {
        assert k > 0 ==> s[..from][k] == s[1..][..rest][k - 1];
      }
    }
  }

  lemma {:induction false} RightIs(s: string) returns (to: nat)
    ensures to <= |s| && RightStripped(s) == s[..to] && Blank(s[to..]) && (to > 0 ==> !IsSpace(s[to - 1]))
  {
    to := |s|;
    if s != "" && IsSpace(s[|s| - 1]) {
      to := RightIs(s[..|s| - 1]);
      forall k | to <= k < |s| ensures IsSpace(s[k]) {
        assert k < |s| - 1 ==> s[..|s| - 1][to..][k - to] == s[k];
      }
    }
  }

  // ---- the places a pattern cuts at ----

  // Two newlines start a cut between paragraphs; white space right behind one of
  // . ! ? starts a cut between sentences.
  predicate Breaks(kind: Boundary, text: string, i: nat)
    requires i < |text|
  {
    match kind
    case BlankLine => text[i] == '\n' && i + 1 < |text| && text[i + 1] == '\n'
    case SentenceEnd => IsSpace(text[i]) && i > 0 && text[i - 1] in ".!?"
  }

  predicate Gap(kind: Boundary, c: char) {
    match kind
    case BlankLine => c == '\n'
    case SentenceEnd => IsSpace(c)
  }

  // What a cut leaves out: from a break to the end of the run it starts.
  datatype Span = Span(from: nat, to: nat)

  predicate IsRun(kind: Boundary, text: string, s: Span) {
    && s.from < s.to <= |text| && Breaks(kind, text, s.from)
    && (forall k :: s.from <= k < s.to ==> Gap(kind, text[k])) && (s.to < |text| ==> !Gap(kind, text[s.to]))
  }

  predicate Unbroken(kind: Boundary, text: string, from: nat, to: nat) {
    from <= to <= |text| && forall i :: from <= i < to ==> !Breaks(kind, text, i)
  }

  // From a place on, the parts are what lies between the cuts, and every break
  // starts one.
  predicate CutFrom(kind: Boundary, text: string, parts: seq<string>, cuts: seq<Span>, at: nat) {
    |parts| == |cuts| + 1 &&
    if cuts == [] then Unbroken(kind, text, at, |text|) && parts[0] == text[at..]
    else
      && IsRun(kind, text, cuts[0]) && Unbroken(kind, text, at, cuts[0].from)
      && parts[0] == text[at..cuts[0].from]
      && CutFrom(kind, text, parts[1..], cuts[1..], cuts[0].to)
  }

  lemma SplitIs(kind: Boundary, text: string) returns (cuts: seq<Span>)
    ensures CutFrom(kind, text, Split(kind, text), cuts, 0)
  {
    cuts := SplitFrom(kind, text, 0);
    assert text[0..] == text;
  }

  lemma {:induction false} SplitFrom(kind: Boundary, text: string, at: nat) returns (cuts: seq<Span>)
    requires at <= |text| && (at == 0 || IsSpace(text[at - 1]))
    requires at > 0 && at < |text| ==> !Gap(kind, text[at])
    ensures CutFrom(kind, text, Split(kind, text[at..]), cuts, at)
    decreases |text| - at
  {
    hide IsSpace, Gap, Unbroken, IsRun, NextCut, Split, CutsAt, Separates, CutFrom;
    var rest := text[at..];
    SplitUnfolds(kind, rest);
    match NextCut(kind, rest, 0)
    case NoCut =>
      cuts := [];
      NoBreaksThere(kind, text, at, |text|);
      NoCuts(kind, text, at);
    case Cut(from, to) =>
      RunThere(kind, text, at, from, to);
      NoBreaksThere(kind, text, at, at + from);
      var more := SplitFrom(kind, text, at + to);
      cuts := [Span(at + from, at + to)] + more;
      assert rest[to..] == text[at + to..] && rest[..from] == text[at..at + from];
      CutCons(kind, text, Split(kind, text[at + to..]), Span(at + from, at + to), more, at);
  }

  lemma NoCuts(kind: Boundary, text: string, at: nat)
    requires Unbroken(kind, text, at, |text|)
    ensures CutFrom(kind, text, [text[at..]], [], at)
  {
  }

  lemma CutCons(kind: Boundary, text: string, parts: seq<string>, cut: Span, more: seq<Span>, at: nat)
    requires IsRun(kind, text, cut) && Unbroken(kind, text, at, cut.from)
    requires CutFrom(kind, text, parts, more, cut.to)
    ensures CutFrom(kind, text, [text[at..cut.from]] + parts, [cut] + more, at)
  {
    hide IsRun, Breaks;
    assert ([cut] + more)[1..] == more && ([text[at..cut.from]] + parts)[1..] == parts;
  }

  lemma SplitUnfolds(kind: Boundary, text: string)
    ensures var cut := NextCut(kind, text, 0);
            Split(kind, text) == if cut.NoCut? then [text] else [text[..cut.from]] + Split(kind, text[cut.to..])
  {
  }

  // A break of the rest is a break of the whole: right behind a run there is
  // neither, and no white space is one of . ! ?
  lemma BreaksThere(kind: Boundary, text: string, at: nat, i: nat)
    requires at <= i < |text| && (at == 0 || IsSpace(text[at - 1])) && (at > 0 ==> !Gap(kind, text[at]))
    ensures Breaks(kind, text, i) <==> CutsAt(kind, text[at..], i - at)
  {
    if i > at {
      assert text[at..][i - at - 1] == text[i - 1];
    }
    assert forall c :: IsSpace(c) ==> c !in ".!?";
  }

  lemma NoBreaksThere(kind: Boundary, text: string, at: nat, to: nat)
    requires at <= to <= |text| && (at == 0 || IsSpace(text[at - 1]))
    requires at > 0 && at < |text| ==> !Gap(kind, text[at])
    requires forall k :: 0 <= k < to - at ==> !CutsAt(kind, text[at..], k)
    ensures Unbroken(kind, text, at, to)
  {
    hide Breaks, Gap, CutsAt;
    forall i | at <= i < to ensures !Breaks(kind, text, i) {
      BreaksThere(kind, text, at, i);
    }
  }

  lemma RunThere(kind: Boundary, text: string, at: nat, from: nat, to: nat)
    requires at <= |text| && (at == 0 || IsSpace(text[at - 1]))
    requires at > 0 && at < |text| ==> !Gap(kind, text[at])
    requires NextCut(kind, text[at..], 0) == Cut(from, to)
    ensures IsRun(kind, text, Span(at + from, at + to)) && IsSpace(text[at + to - 1])
    ensures at + to < |text| ==> !Gap(kind, text[at + to])
  {
    CutIsWhole(kind, text[at..], 0);
    BreaksThere(kind, text, at, at + from);
    hide NextCut;
    forall k | at + from <= k < at + to ensures Gap(kind, text[k]) {
      assert Separates(kind, text[at..][k - at]);
    }
  }

  lemma {:induction false} CutIsWhole(kind: Boundary, text: string, i: nat)
    requires i <= |text|
    ensures var c := NextCut(kind, text, i);
            c.Cut? && c.to < |text| ==> !Gap(kind, text[c.to])
    decreases |text| - i
  {
    if i < |text| && !CutsAt(kind, text, i) {
      CutIsWhole(kind, text, i + 1);
    }
  }

  // ---- filtering ----

  // Part by part: a blank one is dropped, any other is trimmed.
  lemma StrippedAre(a: seq<string>, part: string, b: seq<string>)
    ensures Stripped(a + [part] + b) == Stripped(a) + (if Blank(part) then [] else [Strip(part)]) + Stripped(b)
  {
    hide Strip, Blank;
    BlankIsStripped(part);
    ChunkStrategies.StrippedConcat(a + [part], b);
    ChunkStrategies.StrippedConcat(a, [part]);
    assert [part][1..] == [];
  }

  lemma BlankIsStripped(s: string)
    ensures Strip(s) == "" <==> Blank(s)
  {
    var from, to := StripIs(s);
    if from == to {
      forall k | 0 <= k < |s| ensures IsSpace(s[k]) {
        assert k < from ==> s[..from][k] == s[k];
        assert k >= to ==> s[to..][k - to] == s[k];
      }
    }
  }

  // ---- joining ----

  function Joined(parts: seq<string>, glue: string): string
    requires parts != []
  {
    if |parts| == 1 then parts[0]
    else Joined(parts[..|parts| - 1], glue) + glue + parts[|parts| - 1]
  }

  lemma JoinedSnoc(all: seq<string>, from: nat, k: nat, glue: string)
    requires from < k < |all|
    ensures Joined(all[from..k + 1], glue) == Joined(all[from..k], glue) + glue + all[k]
  {
    assert all[from..k + 1][..k - from] == all[from..k];
  }

  lemma JoinedOne(all: seq<string>, k: nat, glue: string)
    requires k < |all|
    ensures Joined(all[k..k + 1], glue) == all[k]
  {
  }

  // From sentence `from` on, each block joins whole sentences, up to the one its
  // entry of `ends` names, with single blanks; it fits unless it is one sentence,
  // and the sentence behind it would not have fit.
  predicate JoinsFrom(all: seq<string>, blocks: seq<string>, ends: seq<nat>, from: nat, size: nat) {
    && |blocks| == |ends| > 0 && from < ends[0] <= |all|
    && blocks[0] == Joined(all[from..ends[0]], " ")
    && (ends[0] - from > 1 ==> |blocks[0]| <= size)
    && if |ends| == 1 then ends[0] == |all|
       else
         && ends[0] < |all| && |blocks[0]| + 1 + |all[ends[0]]| > size
         && JoinsFrom(all, blocks[1..], ends[1..], ends[0], size)
  }

  // All blocks are there, but for a last one that is white space.
  predicate ButBlank(blocks: seq<string>, result: seq<string>) {
    blocks != [] &&
    var last := |blocks| - 1;
    result == if Blank(blocks[last]) then blocks[..last] else blocks
  }

  lemma ButBlankCons(first: string, blocks: seq<string>, result: seq<string>)
    requires ButBlank(blocks, result)
    ensures ButBlank([first] + blocks, [first] + result)
  {
    assert ([first] + blocks)[..|blocks|] == [first] + blocks[..|blocks| - 1];
    hide Blank;
  }

  lemma {:induction false} SentencesJoin(all: seq<string>, current: string, from: nat, k: nat, size: nat)
    returns (blocks: seq<string>, ends: seq<nat>)
    requires from < k <= |all| && current == Joined(all[from..k], " ") && (k - from > 1 ==> |current| <= size)
    ensures JoinsFrom(all, blocks, ends, from, size)
    ensures ButBlank(blocks, SentencesJoined(current, all[k..], size))
    decreases |all| - k
  {
    hide Strip, Joined, Blank;
    if k == |all| {
      BlankIsStripped(current);
      blocks, ends := [current], [k];
    } else if |current| + 1 + |all[k]| <= size {
      JoinedSnoc(all, from, k, " ");
      assert all[k..][1..] == all[k + 1..];
      blocks, ends := SentencesJoin(all, current + " " + all[k], from, k + 1, size);
    } else {
      assert all[k..][1..] == all[k + 1..];
      JoinedOne(all, k, " ");
      var more, later := SentencesJoin(all, all[k], k, k + 1, size);
      ButBlankCons(current, more, SentencesJoined(all[k], all[k + 1..], size));
      blocks, ends := [current] + more, [k] + later;
      assert blocks[1..] == more && ends[1..] == later;
      hide ButBlank;
    }
  }

  // An oversized segment is cut into its sentences, and these are joined; without
  // a second sentence it is cut by length.
  lemma LargeIs(text: string, size: nat) returns (blocks: seq<string>, ends: seq<nat>)
    requires size > 0
    ensures var sentences := Split(SentenceEnd, text);
            if |sentences| == 1 then SplitLarge(text, size) == HardSplit(text, size)
            else JoinsFrom(sentences, blocks, ends, 0, size) && ButBlank(blocks, SplitLarge(text, size))
  {
    hide HardSplit, Split, JoinsFrom, ButBlank, SentencesJoined;
    var sentences := Split(SentenceEnd, text);
    JoinedOne(sentences, 0, " ");
    blocks, ends := SentencesJoin(sentences, sentences[0], 0, 1, size);
  }

  // By length: up to the size in one part; else a first part, trimmed, that ends
  // at the last blank within the size that leaves something before it, or at the
  // size if there is none, and the trimmed rest cut on.
  lemma HardSplitCuts(text: string, size: nat) returns (at: nat)
    requires size > 0
    ensures |text| <= size ==> HardSplit(text, size) == if text == "" then [] else [text]
    ensures |text| > size ==>
      && 0 < at <= size && (forall k :: at < k < size ==> text[k] != ' ')
      && (text[at] == ' ' || (at == size && forall k :: 0 < k < size ==> text[k] != ' '))
      && HardSplit(text, size) == [Strip(text[..at])] + HardSplit(Strip(text[at..]), size)
  {
    at := 0;
    if |text| > size {
      at := SplitPoint(text, size);
      SplitPointIs(text, size);
    }
    hide Strip;
  }

  // ---- merging ----

  // Segment by segment: one within the size stays whole, a longer one is cut.
  lemma ExpandedAre(a: seq<string>, segment: string, b: seq<string>, size: nat)
    requires size > 0
    ensures Expanded(a + [segment] + b, size)
         == Expanded(a, size) + (if |segment| <= size then [segment] else SplitLarge(segment, size))
            + Expanded(b, size)
  {
    ExpandedConcat(a + [segment], b, size);
    assert (a + [segment])[..|a|] == a;
    hide SplitLarge;
  }

  lemma {:induction false} ExpandedConcat(a: seq<string>, b: seq<string>, size: nat)
    requires size > 0
    ensures Expanded(a + b, size) == Expanded(a, size) + Expanded(b, size)
  {
    hide SplitLarge;
    if b == [] {
      assert a + b == a && Expanded(a, size) + [] == Expanded(a, size);
    } else {
      var n := |b| - 1;
      var last := if |b[n]| > size then SplitLarge(b[n], size) else [b[n]];
      ExpandedConcat(a, b[..n], size);
      assert (a + b)[..|a| + n] == a + b[..n] && (a + b)[|a| + n] == b[n];
      assert Expanded(a, size) + Expanded(b[..n], size) + last == Expanded(a, size) + (Expanded(b[..n], size) + last);
    }
  }

  // From segment `from` on, each chunk carries the tail of the one before and adds
  // whole segments, with blank lines; it fits unless it adds one segment alone,
  // and the segment behind it would not have fit.
  predicate MergesFrom(
    all: seq<string>, blocks: seq<Piece>, ends: seq<nat>, from: nat, tail: string, size: nat, overlap: int)
  {
    && |blocks| == |ends| > 0 && from < ends[0] <= |all|
    && blocks[0] == Piece(tail, Joined(all[from..ends[0]], "\n\n"))
    && (ends[0] - from > 1 ==> |TextOf(blocks[0])| <= size)
    && if |ends| == 1 then ends[0] == |all|
       else
         && ends[0] < |all| && |TextOf(blocks[0])| + 2 + |all[ends[0]]| > size
         && MergesFrom(all, blocks[1..], ends[1..], ends[0], Tail(TextOf(blocks[0]), overlap), size, overlap)
  }

  predicate ButBlankPiece(blocks: seq<Piece>, result: seq<Piece>) {
    blocks != [] &&
    var last := |blocks| - 1;
    result == if Blank(TextOf(blocks[last])) then blocks[..last] else blocks
  }

  lemma ButBlankPieceCons(first: Piece, blocks: seq<Piece>, result: seq<Piece>)
    requires ButBlankPiece(blocks, result)
    ensures ButBlankPiece([first] + blocks, [first] + result)
  {
    assert ([first] + blocks)[..|blocks|] == [first] + blocks[..|blocks| - 1];
    hide Blank, TextOf;
  }

  lemma {:induction false} MergedAre(all: seq<string>, current: Piece, from: nat, k: nat, size: nat, overlap: int)
    returns (blocks: seq<Piece>, ends: seq<nat>)
    requires from < k <= |all| && current.body == Joined(all[from..k], "\n\n")
    requires k - from > 1 ==> |TextOf(current)| <= size
    ensures MergesFrom(all, blocks, ends, from, current.tail, size, overlap)
    ensures ButBlankPiece(blocks, Merged(current, all[k..], size, overlap))
    decreases |all| - k
  {
    hide Strip, Joined, Tail, Blank;
    if k == |all| {
      BlankIsStripped(TextOf(current));
      blocks, ends := [current], [k];
      assert current == Piece(current.tail, current.body);
    } else if |TextOf(current)| + 2 + |all[k]| <= size {
      JoinedSnoc(all, from, k, "\n\n");
      assert all[k..][1..] == all[k + 1..];
      blocks, ends := MergedAre(
        all, current.(body := current.body + "\n\n" + all[k]), from, k + 1, size, overlap);
    } else {
      assert all[k..][1..] == all[k + 1..];
      JoinedOne(all, k, "\n\n");
      var next := Piece(Tail(TextOf(current), overlap), all[k]);
      var more, later := MergedAre(all, next, k, k + 1, size, overlap);
      ButBlankPieceCons(current, more, Merged(next, all[k + 1..], size, overlap));
      blocks, ends := [current] + more, [k] + later;
      assert blocks[1..] == more && ends[1..] == later && current == Piece(current.tail, current.body);
      hide ButBlankPiece, TextOf;
    }
  }

  // What a text's paragraphs, the trimmed parts between blank lines, become: the
  // pieces of a paragraph chunking.
  ghost predicate MergesParagraphs(text: string, pieces: seq<Piece>, size: nat, overlap: int)
    requires size > 0
  {
    var all := Expanded(Stripped(Split(BlankLine, text)), size);
    if all == [] then pieces == []
    else exists blocks, ends :: MergesFrom(all, blocks, ends, 0, "", size, overlap) && ButBlankPiece(blocks, pieces)
  }

  lemma ParagraphsMerge(text: string, size: nat, overlap: int)
    requires size > 0
    ensures MergesParagraphs(text, ParagraphPieces(text, size, overlap), size, overlap)
  {
    hide Expanded, Stripped, Split, Merged, MergesFrom, ButBlankPiece;
    var all := Expanded(ParagraphsOf(text), size);
    if all != [] {
      JoinedOne(all, 0, "\n\n");
      var blocks, ends := MergedAre(all, Piece("", all[0]), 0, 1, size, overlap);
    }
  }

  // A chunk's text: what it carries, a blank line, and what it adds.
  lemma {:induction false} TextsAre(pieces: seq<Piece>, i: nat)
    requires i < |pieces|
    ensures |Texts(pieces)| == |pieces|
    ensures Texts(pieces)[i]
         == if pieces[i].tail == "" then pieces[i].body else pieces[i].tail + "\n\n" + pieces[i].body
  {
    if |pieces| > 1 {
      TextsAre(pieces[1..], if i > 0 then i - 1 else 0);
    }
  }

  // ---- the carried tail ----

  predicate WordStart(window: string, k: nat) {
    && k <= |window|
    && if ' ' in window then k > 0 && window[k - 1] == ' ' && ' ' !in window[..k - 1] else k == 0
  }

  // Behind the first blank of the last `overlap` characters, or all of them; none
  // if that would be white space, or if there are no more characters than that.
  lemma TailIs(text: string, overlap: int) returns (k: nat)
    ensures overlap <= 0 || |text| <= overlap ==> Tail(text, overlap) == ""
    ensures 0 < overlap < |text| ==>
      var window := text[|text| - overlap..];
      && WordStart(window, k) && Tail(text, overlap) == if Blank(window[k..]) then "" else window[k..]
  {
    k := 0;
    if 0 < overlap < |text| {
      var window := text[|text| - overlap..];
      var space := FirstSpace(window, 0);
      FirstSpaceIs(window, 0);
      k := if space < |window| then space + 1 else 0;
      BlankIsStripped(window[k..]);
      assert window[0..] == window;
      hide Strip, Blank;
    }
  }
}
