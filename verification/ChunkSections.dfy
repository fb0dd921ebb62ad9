/** What each strategy makes of a document: where sections start, which chunks a
    section becomes, and how long a chunk can get. */
module ChunkSections {
  import opened Chunker
  import opened ChunkStrategies
  import opened ChunkMergings

  // ---- marks ----

  const METHODS: seq<string> := ["GET", "POST", "PUT", "PATCH", "DELETE", "HEAD", "OPTIONS"]

  predicate Only(text: string, from: nat, to: nat, c: char)
    requires from <= to <= |text|
  {
    forall k :: from <= k < to ==> text[k] == c
  }

  predicate OnlySpace(text: string, from: nat, to: nat)
    requires from <= to <= |text|
  {
    forall k :: from <= k < to ==> IsSpace(text[k])
  }

  // At the start of a line, one to four hashes up to `to`, and white space.
  predicate HeaderAt(text: string, i: nat, to: nat) {
    && (i == 0 || (i <= |text| && text[i - 1] == '\n'))
    && i < to <= i + 4 && to < |text| && Only(text, i, to, '#') && IsSpace(text[to])
  }

  // White space from there up to `at`, one of the seven methods, and white space.
  predicate MethodAt(text: string, to: nat, at: nat, method_: string) {
    && to < at && at + |method_| < |text| && method_ in METHODS
    && OnlySpace(text, to, at) && text[at..at + |method_|] == method_ && IsSpace(text[at + |method_|])
  }

  lemma HeaderIff(text: string, i: nat)
    requires i < |text|
    ensures MarkAt(Header, text, i) <==> exists to :: HeaderAt(text, i, to)
  {
    HashesAre(text, i);
    if to :| HeaderAt(text, i, to) {
      RunIsMaximal(text, i, to);
    }
    if MarkAt(Header, text, i) {
      assert HeaderAt(text, i, i + Hashes(text, i));
    }
  }

  lemma EndpointIff(text: string, i: nat)
    requires i < |text|
    ensures MarkAt(Endpoint, text, i) <==>
              exists to, at, m :: HeaderAt(text, i, to) && MethodAt(text, to, at, m)
  {
    hide Hashes, MethodAt;
    if to, at, m :| HeaderAt(text, i, to) && MethodAt(text, to, at, m) {
      RunIsMaximal(text, i, to);
      MethodMarks(text, i, to, at, m);
    }
    if MarkAt(Endpoint, text, i) {
      HashesAre(text, i);
      var to := i + Hashes(text, i);
      assert HeaderAt(text, i, to);
      MarkHasMethod(text, i, to);
    }
  }

  lemma {:induction false} HashesAre(text: string, i: nat)
    requires i <= |text|
    ensures var to := i + Hashes(text, i);
            Only(text, i, to, '#') && (to < |text| ==> text[to] != '#')
    decreases |text| - i
  {
    if i < |text| && text[i] == '#' {
      HashesAre(text, i + 1);
    }
  }

  lemma RunIsMaximal(text: string, i: nat, to: nat)
    requires i <= |text| && HeaderAt(text, i, to)
    ensures to == i + Hashes(text, i)
  {
    HashesAre(text, i);
    var end := i + Hashes(text, i);
    assert !IsSpace('#');
    assert !(end < to) && !(to < end);
  }

  lemma MarkHasMethod(text: string, i: nat, to: nat)
    requires i < |text| && MarkAt(Endpoint, text, i) && to == i + Hashes(text, i)
    ensures exists at, m :: MethodAt(text, to, at, m)
  {
    hide IsSpace, Hashes, RunEnd;
    var at := RunEnd(SentenceEnd, text, to);
    assert OnlySpace(text, to, at) && to != at;
    var k := WhichMethod(text, at);
    assert METHODS[k] in METHODS && MethodAt(text, to, at, METHODS[k]);
  }

  lemma WhichMethod(text: string, at: nat) returns (k: nat)
    requires || WordAt(text, at, "GET") || WordAt(text, at, "POST") || WordAt(text, at, "PUT")
             || WordAt(text, at, "PATCH") || WordAt(text, at, "DELETE") || WordAt(text, at, "HEAD")
             || WordAt(text, at, "OPTIONS")
    ensures k < |METHODS| && WordAt(text, at, METHODS[k])
  {
    hide WordAt;
    k := if WordAt(text, at, "GET") then 0 else if WordAt(text, at, "POST") then 1
         else if WordAt(text, at, "PUT") then 2 else if WordAt(text, at, "PATCH") then 3
         else if WordAt(text, at, "DELETE") then 4 else if WordAt(text, at, "HEAD") then 5 else 6;
  }

  lemma MethodMarks(text: string, i: nat, to: nat, at: nat, m: string)
    requires i < |text| && HeaderAt(text, i, to) && MethodAt(text, to, at, m) && to == i + Hashes(text, i)
    ensures MarkAt(Endpoint, text, i)
  {
    MethodStandsThere(text, to, at, m);
    hide IsSpace, Hashes, RunEnd, Only, OnlySpace;
  }

  lemma MethodStandsThere(text: string, to: nat, at: nat, m: string)
    requires to < |text| && MethodAt(text, to, at, m)
    ensures at == RunEnd(SentenceEnd, text, to) && WordAt(text, at, m)
  {
    assert m[0] in "GPDHO" && text[at] == m[0] && !IsSpace(text[at]);
    var end := RunEnd(SentenceEnd, text, to);
    assert !(end < at) && !(at < end);
  }

  // ---- sections ----

  // What lies before the first mark, and from each mark to the next or the end.
  function Cell(text: string, ps: seq<nat>, k: nat): string
    requires k <= |ps| && ps != [] && Ascending(text, ps)
  {
    if k == 0 then text[..ps[0]]
    else text[ps[k - 1]..if k < |ps| then ps[k] else |text|]
  }

  function Flat(groups: seq<seq<Piece>>): seq<Piece> {
    if groups == [] then [] else Flat(groups[..|groups| - 1]) + groups[|groups| - 1]
  }

  // The first line, and what is behind its newline.
  predicate FirstLine(section: string, header: string, body: string) {
    '\n' !in header && (if section == header then body == "" else section == header + "\n" + body)
  }

  // A header line on top of the first chunk of what is under it, or alone.
  predicate OnTop(header: string, sub: seq<Piece>, pieces: seq<Piece>) {
    && |pieces| == (if sub == [] then 1 else |sub|) && pieces != []
    && pieces[0] == Piece("", if sub == [] then header else header + "\n" + TextOf(sub[0]))
    && (sub != [] ==> pieces[1..] == sub[1..])
  }

  // A section within the limit is one chunk. A longer one is cut into its
  // paragraphs, under a header within what the header leaves, but at least 50.
  ghost predicate IsSection(mark: Mark, section: string, pieces: seq<Piece>, size: nat, overlap: int)
    requires size > 0
  {
    if |section| <= size then pieces == [Piece("", section)]
    else if mark.Endpoint? then MergesParagraphs(section, pieces, size, overlap)
    else exists header, body, sub ::
      FirstLine(section, header, body) && OnTop(header, sub, pieces)
      && MergesParagraphs(body, sub, Left(size, header), overlap)
  }

  function Left(size: nat, header: string): (n: nat)
    ensures n > 0
  {
    if |header| + 51 < size then size - |header| - 1 else 50
  }

  lemma SectionIs(mark: Mark, section: string, size: nat, overlap: int)
    requires size > 0
    ensures IsSection(mark, section, SectionPieces(mark, section, size, overlap), size, overlap)
  {
    hide MergesParagraphs, ParagraphPieces, HeaderOf, BodyOf;
    if |section| > size {
      if mark.Endpoint? {
        ParagraphsMerge(section, size, overlap);
      } else {
        var header, body := HeaderOf(section), BodyOf(section);
        var sub := ParagraphPieces(body, EffectiveSize(size, header), overlap);
        HeaderIsFirstLine(section);
        ParagraphsMerge(body, EffectiveSize(size, header), overlap);
        assert FirstLine(section, header, body) && OnTop(header, sub, Headed(header, sub)) by {
          hide FirstLine, TextOf;
        }
      }
    }
  }

  lemma HeaderIsFirstLine(section: string)
    ensures FirstLine(section, HeaderOf(section), BodyOf(section))
  {
    LineEndIs(section, 0);
    var e := LineEnd(section, 0);
    if e < |section| {
      assert section == section[..e] + "\n" + section[e + 1..];
      assert |section| != |section[..e]|;
    }
  }

  lemma {:induction false} LineEndIs(text: string, i: nat)
    requires i <= |text|
    ensures forall k :: i <= k < LineEnd(text, i) ==> text[k] != '\n'
    decreases |text| - i
  {
    if i < |text| && text[i] != '\n' {
      LineEndIs(text, i + 1);
    }
  }

  // One group of chunks for each section that is not blank, in order, which holds
  // that section's text and no other's.
  ghost predicate Sectioned(
    mark: Mark, text: string, ps: seq<nat>, groups: seq<seq<Piece>>, size: nat, overlap: int)
    requires size > 0 && ps != [] && Ascending(text, ps)
  {
    && |groups| == |ps| + 1
    && forall k: nat :: k <= |ps| ==>
         if Blank(Cell(text, ps, k)) then groups[k] == []
         else
           && IsSection(mark, Strip(Cell(text, ps, k)), groups[k], size, overlap)
           && Conserves(groups[k], Strip(Cell(text, ps, k)), overlap)
  }

  lemma SectionsAre(mark: Mark, text: string, ps: seq<nat>, size: nat, overlap: int)
    returns (groups: seq<seq<Piece>>)
    requires size > 0 && ps != [] && Ascending(text, ps)
    ensures Sectioned(mark, text, ps, groups, size, overlap)
    ensures Flat(groups) == AllPieces(mark, Sections(text, ps), size, overlap)
  {
    hide IsSection, Blank, Strip, AllPieces, Flat, Stripped, Slices, Conserves;
    var cells := [text[..ps[0]]] + Slices(text, ps);
    groups := Groups(mark, cells, size, overlap);
    CellsAre(text, ps);
  }

  lemma CellsAre(text: string, ps: seq<nat>)
    requires ps != [] && Ascending(text, ps)
    ensures var cells := [text[..ps[0]]] + Slices(text, ps);
            |cells| == |ps| + 1 && forall k: nat :: k <= |ps| ==> cells[k] == Cell(text, ps, k)
  {
    hide Slices;
    SlicesStartAtMarks(text, ps, 0);
    forall k: nat | 0 < k <= |ps| ensures Slices(text, ps)[k - 1] == Cell(text, ps, k) {
      SlicesStartAtMarks(text, ps, k - 1);
    }
  }

  lemma {:induction false} Groups(mark: Mark, cells: seq<string>, size: nat, overlap: int)
    returns (groups: seq<seq<Piece>>)
    requires size > 0
    ensures |groups| == |cells|
    ensures forall k: nat :: k < |cells| ==>
      if Blank(cells[k]) then groups[k] == []
      else
        && IsSection(mark, Strip(cells[k]), groups[k], size, overlap)
        && Conserves(groups[k], Strip(cells[k]), overlap)
    ensures Flat(groups) == AllPieces(mark, Stripped(cells), size, overlap)
  {
    hide IsSection, Blank, Strip, SectionPieces, Conserves;
    groups := [];
    if cells != [] {
      var n := |cells| - 1;
      var before := Groups(mark, cells[..n], size, overlap);
      var last := if Blank(cells[n]) then [] else SectionPieces(mark, Strip(cells[n]), size, overlap);
      groups := before + [last];
      assert groups[..n] == before && cells == cells[..n] + [cells[n]] + [];
      StrippedAre(cells[..n], cells[n], []);
      OneSection(mark, Stripped(cells[..n]), Strip(cells[n]), size, overlap);
      SectionIs(mark, Strip(cells[n]), size, overlap);
      SectionConserves(mark, Strip(cells[n]), size, overlap);
    }
  }

  lemma OneSection(mark: Mark, sections: seq<string>, section: string, size: nat, overlap: int)
    requires size > 0
    ensures AllPieces(mark, sections + [section] + [], size, overlap)
         == AllPieces(mark, sections, size, overlap) + SectionPieces(mark, section, size, overlap)
    ensures sections + [] + [] == sections && Stripped([]) == []
  {
    var all := sections + [section] + [];
    assert all[..|all| - 1] == sections && all[|all| - 1] == section;
  }

  // ---- the strategies ----

  ghost predicate AnyMark(mark: Mark, text: string) {
    exists i: nat :: i < |text| && MarkAt(mark, text, i)
  }

  // All marks of the text, in order.
  ghost predicate AllMarks(mark: Mark, text: string, ps: seq<nat>) {
    && ps != [] && Ascending(text, ps)
    && forall i: nat :: i in ps <==> i < |text| && MarkAt(mark, text, i)
  }

  ghost predicate CutAtMarks(mark: Mark, text: string, pieces: seq<Piece>, size: nat, overlap: int)
    requires size > 0
  {
    exists ps, groups ::
      AllMarks(mark, text, ps) && Sectioned(mark, text, ps, groups, size, overlap) && pieces == Flat(groups)
  }

  // What a document becomes, by its kind: an API document with endpoints is cut at
  // them; one without, and a wiki page, at headers if it has any; an issue within
  // the limit is one chunk; everything else is cut into paragraphs.
  lemma PiecesAre(content: string, kind: SourceType, size: nat, overlap: int)
    requires size > 0
    ensures var text, pieces := Strip(content), PiecesOf(content, kind, size, overlap);
            if text == "" then pieces == []
            else if kind == ApiDoc && AnyMark(Endpoint, text) then CutAtMarks(Endpoint, text, pieces, size, overlap)
            else if kind in {ApiDoc, Wiki} && AnyMark(Header, text)
            then CutAtMarks(Header, text, pieces, size, overlap)
            else if kind == Jira && |text| <= size then pieces == [Piece("", text)]
            else MergesParagraphs(text, pieces, size, overlap)
  {
    hide Strip, MarkAt, CutAtMarks, MergesParagraphs, ParagraphPieces, AllPieces, Sections, Positions;
    var text := Strip(content);
    if text != "" {
      MarksCut(Endpoint, text, size, overlap);
      MarksCut(Header, text, size, overlap);
      ParagraphsMerge(text, size, overlap);
    }
  }

  lemma MarksCut(mark: Mark, text: string, size: nat, overlap: int)
    requires size > 0
    ensures var ps := Positions(mark, text, 0);
            && (ps != [] <==> AnyMark(mark, text))
            && (ps != [] ==> CutAtMarks(mark, text, AllPieces(mark, Sections(text, ps), size, overlap), size, overlap))
  {
    hide MarkAt, Sectioned, Positions, AllPieces, Sections;
    var ps := Positions(mark, text, 0);
    if ps != [] {
      assert ps[0] in ps;
      var groups := SectionsAre(mark, text, ps, size, overlap);
      assert AllMarks(mark, text, ps);
    }
  }

  // ---- how long a chunk can get ----

  function Carried(overlap: int): nat { if overlap > 0 then overlap else 0 }

  ghost predicate ParagraphsWithin(text: string, longest: nat) {
    forall p :: p in ParagraphsOf(text) ==> SentencesWithin(p, longest)
  }

  // Without sections: the chunk size, or the longest sentence if that is longer,
  // and room for what is carried over and a blank line.
  lemma PlainChunksFit(content: string, kind: SourceType, size: nat, overlap: int, longest: nat)
    requires size > 0 && ParagraphsWithin(Strip(content), longest)
    requires var text := Strip(content);
             !(kind == ApiDoc && AnyMark(Endpoint, text)) && !(kind in {ApiDoc, Wiki} && AnyMark(Header, text))
    ensures forall p :: p in PiecesOf(content, kind, size, overlap) ==>
      |TextOf(p)| <= Larger(size, longest) + Carried(overlap) + 2
  {
    hide Strip, MarkAt, ParagraphPieces, Positions, AllPieces, Sections, ParagraphsWithin;
    var text := Strip(content);
    MarksCut(Endpoint, text, size, overlap);
    MarksCut(Header, text, size, overlap);
    PiecesFit(text, size, overlap, longest);
  }

  lemma PiecesFit(text: string, size: nat, overlap: int, longest: nat)
    requires size > 0 && ParagraphsWithin(text, longest)
    ensures forall p :: p in ParagraphPieces(text, size, overlap) ==>
      |TextOf(p)| <= Larger(size, longest) + Carried(overlap) + 2
  {
    hide SentencesWithin, ParagraphsOf, ParagraphPieces;
    ParagraphChunksFit(text, size, overlap, longest);
  }

  // The sentences a section's chunks are built from: its own, or those under its
  // header line.
  ghost predicate SectionWithin(mark: Mark, section: string, longest: nat) {
    ParagraphsWithin(if mark.Header? then BodyOf(section) else section, longest)
  }

  // In sections, a header line and its newline come on top of that, and what is
  // under a long header may be filled up to 50.
  lemma SectionFits(mark: Mark, section: string, size: nat, overlap: int, longest: nat)
    requires size > 0 && SectionWithin(mark, section, longest)
    ensures var head := if mark.Header? then |HeaderOf(section)| + 1 else 0;
            var room := Larger(size, head + Larger(longest, if mark.Header? then 50 else 0));
            forall p :: p in SectionPieces(mark, section, size, overlap) ==> |TextOf(p)| <= room + Carried(overlap) + 2
  {
    hide ParagraphsWithin, ParagraphPieces, HeaderOf, BodyOf;
    if |section| > size {
      if mark.Endpoint? {
        PiecesFit(section, size, overlap, longest);
      } else {
        var header, body := HeaderOf(section), BodyOf(section);
        PiecesFit(body, EffectiveSize(size, header), overlap, longest);
      }
    }
  }

  // And so for every chunk of a document cut at marks.
  lemma {:induction false} SectionedFits(
    mark: Mark, sections: seq<string>, size: nat, overlap: int, longest: nat, head: nat)
    requires size > 0 && forall s :: s in sections ==> SectionWithin(mark, s, longest)
    requires mark.Header? ==> forall s :: s in sections ==> |HeaderOf(s)| + 1 <= head
    ensures var top, least := if mark.Header? then head else 0, if mark.Header? then 50 else 0;
            var room := Larger(size, top + Larger(longest, least));
            forall p :: p in AllPieces(mark, sections, size, overlap) ==> |TextOf(p)| <= room + Carried(overlap) + 2
  {
    hide SectionWithin, SectionPieces, HeaderOf, TextOf;
    if sections != [] {
      var n := |sections| - 1;
      SectionedFits(mark, sections[..n], size, overlap, longest, head);
      SectionFits(mark, sections[n], size, overlap, longest);
      assert sections[n] in sections;
    }
  }
}
