/** corpus/chunker.py: the four document strategies, and what all of them keep. */
module ChunkStrategies {
  import opened Chunker

  datatype SourceType = PlainText | Wiki | Jira | ApiDoc

  // ---- where sections start ----

  datatype Mark = Header | Endpoint

  function Hashes(text: string, i: nat): (n: nat)
    requires i <= |text|
    ensures i + n <= |text|
    decreases |text| - i
  {
    if i < |text| && text[i] == '#' then 1 + Hashes(text, i + 1) else 0
  }

  predicate WordAt(text: string, at: nat, word: string) {
    at + |word| < |text| && text[at..at + |word|] == word && IsSpace(text[at + |word|])
  }

  // ^(#{1,4})\s, and ^#{1,4}\s+(GET|...)\s+, at the start of a line.
  predicate MarkAt(mark: Mark, text: string, i: nat)
    requires i < |text|
  {
    var from := i + Hashes(text, i);
    && (i == 0 || text[i - 1] == '\n')
    && i < from <= i + 4 && from < |text| && IsSpace(text[from])
    && (mark.Endpoint? ==>
      var word := RunEnd(SentenceEnd, text, from);
      || WordAt(text, word, "GET") || WordAt(text, word, "POST") || WordAt(text, word, "PUT")
      || WordAt(text, word, "PATCH") || WordAt(text, word, "DELETE") || WordAt(text, word, "HEAD")
      || WordAt(text, word, "OPTIONS"))
  }

  function Positions(mark: Mark, text: string, i: nat): (ps: seq<nat>)
    requires i <= |text|
    ensures Ascending(text, ps) && forall k :: 0 <= k < |ps| ==> i <= ps[k]
    ensures forall p: nat :: p in ps <==> i <= p < |text| && MarkAt(mark, text, p)
    decreases |text| - i
  {
    if i == |text| then []
    else (if MarkAt(mark, text, i) then [i] else []) + Positions(mark, text, i + 1)
  }

  predicate Ascending(text: string, ps: seq<nat>) {
    && (forall k :: 0 <= k < |ps| ==> ps[k] < |text|)
    && (forall k, l :: 0 <= k < l < |ps| ==> ps[k] < ps[l])
  }

  function Slices(text: string, ps: seq<nat>): seq<string>
    requires Ascending(text, ps)
  {
    if ps == [] then []
    else [text[ps[0]..if |ps| > 1 then ps[1] else |text|]] + Slices(text, ps[1..])
  }

  // A preamble, if any, and one section for each position.
  function Sections(text: string, ps: seq<nat>): seq<string>
    requires ps != [] && Ascending(text, ps)
  {
    Stripped([text[..ps[0]]] + Slices(text, ps))
  }

  method CutSections(text: string, ps: seq<nat>) returns (sections: seq<string>)
    requires ps != [] && Ascending(text, ps)
    ensures sections == Sections(text, ps)
  {
    hide Strip, Sections, Stripped, Slices;
    sections := [];
    if ps[0] > 0 {
      var preamble := Strip(text[..ps[0]]);
      if preamble != "" {
        sections := sections + [preamble];
      }
    }
    Preamble(text, ps, sections);
    for i := 0 to |ps|
      invariant Ascending(text, ps[i..])
      invariant sections + Stripped(Slices(text, ps[i..])) == Sections(text, ps)
    {
      var end := if i + 1 < |ps| then ps[i + 1] else |text|;
      var section := Strip(text[ps[i]..end]);
      NextSection(text, ps, i);
      if section != "" {
        sections := sections + [section];
      }
    }
    NoSections(text, ps, sections);
  }

  lemma Preamble(text: string, ps: seq<nat>, sections: seq<string>)
    requires ps != [] && Ascending(text, ps)
    requires sections == if ps[0] > 0 && Strip(text[..ps[0]]) != "" then [Strip(text[..ps[0]])] else []
    ensures Ascending(text, ps[0..]) && sections + Stripped(Slices(text, ps[0..])) == Sections(text, ps)
  {
    hide Slices;
    var first := [text[..ps[0]]];
    StrippedConcat(first, Slices(text, ps));
    assert Strip("") == "" && ps[0..] == ps && first[1..] == [];
    assert Stripped(first) == sections;
  }

  lemma NextSection(text: string, ps: seq<nat>, i: nat)
    requires i < |ps| && Ascending(text, ps)
    ensures Ascending(text, ps[i..]) && Ascending(text, ps[i + 1..])
    ensures var section := Strip(text[ps[i]..if i + 1 < |ps| then ps[i + 1] else |text|]);
            var kept := if section == "" then [] else [section];
            Stripped(Slices(text, ps[i..])) == kept + Stripped(Slices(text, ps[i + 1..]))
  {
    hide Strip;
    assert ps[i..][1..] == ps[i + 1..];
    var slice := text[ps[i]..if i + 1 < |ps| then ps[i + 1] else |text|];
    assert Slices(text, ps[i..]) == [slice] + Slices(text, ps[i + 1..]);
    assert Slices(text, ps[i..])[1..] == Slices(text, ps[i + 1..]);
  }

  lemma NoSections(text: string, ps: seq<nat>, sections: seq<string>)
    requires Ascending(text, ps)
    ensures sections + Stripped(Slices(text, ps[|ps|..])) == sections
  {
    assert ps[|ps|..] == [];
  }

  lemma {:induction false} StrippedConcat(a: seq<string>, b: seq<string>)
    ensures Stripped(a + b) == Stripped(a) + Stripped(b)
  {
    if a == [] {
      assert a + b == b;
    } else {
      assert (a + b)[1..] == a[1..] + b;
      StrippedConcat(a[1..], b);
    }
  }

  lemma {:induction false} InkSlices(text: string, ps: seq<nat>)
    requires ps != [] && Ascending(text, ps)
    ensures InkAll(Slices(text, ps)) == Ink(text[ps[0]..])
  {
    hide Ink, InkAll;
    if |ps| == 1 {
      InkOne(text[ps[0]..]);
      assert ps[1..] == [] && text[ps[0]..|text|] == text[ps[0]..];
      assert Slices(text, ps) == [text[ps[0]..]];
    } else {
      InkSlices(text, ps[1..]);
      InkAllCons(text[ps[0]..ps[1]], Slices(text, ps[1..]));
      InkConcat(text[ps[0]..ps[1]], text[ps[1]..]);
      assert text[ps[0]..] == text[ps[0]..ps[1]] + text[ps[1]..];
    }
  }

  lemma InkSections(text: string, ps: seq<nat>)
    requires ps != [] && Ascending(text, ps)
    ensures InkAll(Sections(text, ps)) == Ink(text)
  {
    hide Ink, InkAll, Stripped, Slices;
    InkStripped([text[..ps[0]]] + Slices(text, ps));
    InkAllCons(text[..ps[0]], Slices(text, ps));
    InkSlices(text, ps);
    InkConcat(text[..ps[0]], text[ps[0]..]);
    assert text == text[..ps[0]] + text[ps[0]..];
  }

  // ---- putting the pieces of sections together ----

  lemma {:induction false} BodiesConcat(a: seq<Piece>, b: seq<Piece>)
    ensures Bodies(a + b) == Bodies(a) + Bodies(b)
  {
    if a == [] {
      assert a + b == b;
    } else {
      assert (a + b)[1..] == a[1..] + b;
      BodiesConcat(a[1..], b);
    }
  }

  lemma {:induction false} TextsConcat(a: seq<Piece>, b: seq<Piece>)
    ensures Texts(a + b) == Texts(a) + Texts(b)
  {
    hide TextOf;
    if a == [] {
      assert a + b == b;
    } else {
      assert (a + b)[1..] == a[1..] + b;
      TextsConcat(a[1..], b);
    }
  }

  predicate Kept(pieces: seq<Piece>, overlap: int) {
    WellCarried(pieces, overlap) && (pieces != [] ==> pieces[0].tail == "")
  }

  lemma KeptConcat(a: seq<Piece>, b: seq<Piece>, overlap: int)
    requires Kept(a, overlap) && Kept(b, overlap)
    ensures Kept(a + b, overlap)
  {
    hide IsSuffix, TextOf;
    forall i | 0 <= i < |a + b| ensures Carries(a + b, i, overlap) {
      if i < |a| {
        assert Carries(a, i, overlap);
      } else {
        assert Carries(b, i - |a|, overlap);
        assert i > |a| ==> (a + b)[i - 1] == b[i - |a| - 1];
      }
    }
  }

  lemma ConservesIsKept(pieces: seq<Piece>, text: string, overlap: int)
    ensures Conserves(pieces, text, overlap) <==> InkAll(Bodies(pieces)) == Ink(text) && Kept(pieces, overlap)
  {
  }

  // ---- wiki pages ----

  function LineEnd(text: string, i: nat): (e: nat)
    requires i <= |text|
    ensures i <= e <= |text| && (e < |text| ==> text[e] == '\n')
    decreases |text| - i
  {
    if i < |text| && text[i] != '\n' then LineEnd(text, i + 1) else i
  }

  function HeaderOf(section: string): string { section[..LineEnd(section, 0)] }

  function BodyOf(section: string): string {
    var e := LineEnd(section, 0);
    if e < |section| then section[e + 1..] else ""
  }

  function EffectiveSize(size: nat, header: string): (n: nat)
    ensures n > 0
  {
    if size - |header| - 1 > 50 then size - |header| - 1 else 50
  }

  function Headed(header: string, sub: seq<Piece>): seq<Piece> {
    if sub == [] then [Piece("", header)]
    else [Piece("", header + "\n" + TextOf(sub[0]))] + sub[1..]
  }

  function WikiSection(section: string, size: nat, overlap: int): seq<Piece> {
    if |section| <= size then [Piece("", section)]
    else
      var header := HeaderOf(section);
      Headed(header, ParagraphPieces(BodyOf(section), EffectiveSize(size, header), overlap))
  }

  function ApiSection(section: string, size: nat, overlap: int): seq<Piece>
    requires size > 0
  {
    if |section| <= size then [Piece("", section)] else ParagraphPieces(section, size, overlap)
  }

  function SectionPieces(mark: Mark, section: string, size: nat, overlap: int): seq<Piece>
    requires size > 0
  {
    if mark.Header? then WikiSection(section, size, overlap) else ApiSection(section, size, overlap)
  }

  function AllPieces(mark: Mark, sections: seq<string>, size: nat, overlap: int): seq<Piece>
    requires size > 0
  {
    if sections == [] then []
    else
      var n := |sections| - 1;
      AllPieces(mark, sections[..n], size, overlap) + SectionPieces(mark, sections[n], size, overlap)
  }

  function WikiPieces(text: string, size: nat, overlap: int): seq<Piece>
    requires size > 0
  {
    var ps := Positions(Header, text, 0);
    if ps == [] then ParagraphPieces(text, size, overlap)
    else AllPieces(Header, Sections(text, ps), size, overlap)
  }

  function ApiPieces(text: string, size: nat, overlap: int): seq<Piece>
    requires size > 0
  {
    var ps := Positions(Endpoint, text, 0);
    if ps == [] then WikiPieces(text, size, overlap)
    else AllPieces(Endpoint, Sections(text, ps), size, overlap)
  }

  function PiecesOf(content: string, kind: SourceType, size: nat, overlap: int): seq<Piece>
    requires size > 0
  {
    var text := Strip(content);
    if text == "" then []
    else
      match kind
      case Wiki => WikiPieces(text, size, overlap)
      case Jira => if |text| <= size then [Piece("", text)] else ParagraphPieces(text, size, overlap)
      case ApiDoc => ApiPieces(text, size, overlap)
      case PlainText => ParagraphPieces(text, size, overlap)
  }

  // ---- conservation ----

  lemma OnePieceConserves(text: string, overlap: int)
    ensures Conserves([Piece("", text)], text, overlap)
  {
    InkOne(text);
    assert Bodies([Piece("", text)]) == [text];
  }

  lemma HeaderConserves(section: string)
    ensures Ink(HeaderOf(section) + "\n" + BodyOf(section)) == Ink(section)
  {
    var e := LineEnd(section, 0);
    hide Ink;
    if e < |section| {
      assert section == HeaderOf(section) + "\n" + BodyOf(section);
    } else {
      InkGlued(section, "\n", "");
      assert section + "\n" + "" == HeaderOf(section) + "\n" + BodyOf(section);
      InkConcat(section, "");
      assert section + "" == section;
    }
  }

  lemma HeadedKept(header: string, sub: seq<Piece>, overlap: int)
    requires Kept(sub, overlap)
    ensures Kept(Headed(header, sub), overlap)
  {
    var pieces := Headed(header, sub);
    forall i | 0 <= i < |pieces| ensures Carries(pieces, i, overlap) {
      if i > 0 {
        assert Carries(sub, i, overlap);
        if i == 1 {
          SuffixGrows(sub[1].tail, header + "\n", TextOf(sub[0]));
        }
      }
    }
  }

  lemma SuffixGrows(s: string, prefix: string, text: string)
    ensures IsSuffix(s, text) ==> IsSuffix(s, prefix + text)
  {
  }

  lemma InkHeaded(header: string, sub: seq<Piece>)
    requires sub != [] ==> sub[0].tail == ""
    ensures InkAll(Bodies(Headed(header, sub))) == Ink(header) + InkAll(Bodies(sub))
  {
    hide Ink;
    if sub == [] {
      InkOne(header);
      assert Bodies(Headed(header, sub)) == [header];
    } else {
      InkGlued(header, "\n", sub[0].body);
      InkAllCons(header + "\n" + sub[0].body, Bodies(sub[1..]));
      InkAllCons(sub[0].body, Bodies(sub[1..]));
      assert Headed(header, sub)[1..] == sub[1..];
    }
  }

  lemma SectionConserves(mark: Mark, section: string, size: nat, overlap: int)
    requires size > 0
    ensures Conserves(SectionPieces(mark, section, size, overlap), section, overlap)
  {
    hide Ink, InkAll, ParagraphPieces, Kept, WellCarried, Headed;
    if |section| <= size {
      OnePieceConserves(section, overlap);
    } else if mark.Endpoint? {
      ParagraphsConserve(section, size, overlap);
    } else {
      var header, body := HeaderOf(section), BodyOf(section);
      var sub := ParagraphPieces(body, EffectiveSize(size, header), overlap);
      ParagraphsConserve(body, EffectiveSize(size, header), overlap);
      ConservesIsKept(sub, body, overlap);
      HeadedKept(header, sub, overlap);
      InkHeaded(header, sub);
      HeaderConserves(section);
      InkGlued(header, "\n", body);
      ConservesIsKept(Headed(header, sub), section, overlap);
    }
  }

  lemma {:induction false} AllConserve(mark: Mark, sections: seq<string>, size: nat, overlap: int)
    requires size > 0
    ensures InkAll(Bodies(AllPieces(mark, sections, size, overlap))) == InkAll(sections)
    ensures Kept(AllPieces(mark, sections, size, overlap), overlap)
  {
    hide Ink, SectionPieces, Carries;
    if sections != [] {
      var n := |sections| - 1;
      var before := AllPieces(mark, sections[..n], size, overlap);
      var last := SectionPieces(mark, sections[n], size, overlap);
      AllConserve(mark, sections[..n], size, overlap);
      SectionConserves(mark, sections[n], size, overlap);
      ConservesIsKept(last, sections[n], overlap);
      KeptConcat(before, last, overlap);
      BodiesConcat(before, last);
      InkAllConcat(Bodies(before), Bodies(last));
      InkAllConcat(sections[..n], [sections[n]]);
      InkOne(sections[n]);
      assert sections == sections[..n] + [sections[n]];
    }
  }

  lemma SectionsConserve(mark: Mark, text: string, ps: seq<nat>, size: nat, overlap: int)
    requires size > 0 && ps != [] && Ascending(text, ps)
    ensures Conserves(AllPieces(mark, Sections(text, ps), size, overlap), text, overlap)
  {
    hide Ink, InkAll, Kept, WellCarried, Sections, AllPieces;
    AllConserve(mark, Sections(text, ps), size, overlap);
    InkSections(text, ps);
    ConservesIsKept(AllPieces(mark, Sections(text, ps), size, overlap), text, overlap);
  }

  lemma WikiConserves(text: string, size: nat, overlap: int)
    requires size > 0
    ensures Conserves(WikiPieces(text, size, overlap), text, overlap)
  {
    hide Conserves, Sections, AllPieces, ParagraphPieces;
    var ps := Positions(Header, text, 0);
    if ps == [] {
      ParagraphsConserve(text, size, overlap);
    } else {
      SectionsConserve(Header, text, ps, size, overlap);
    }
  }

  // Whatever the strategy, the chunks are the document in order, but for white
  // space and for what each carries over from the end of the one before it.
  lemma ChunksConserve(content: string, kind: SourceType, size: nat, overlap: int)
    requires size > 0
    ensures Conserves(PiecesOf(content, kind, size, overlap), content, overlap)
    ensures PiecesOf(content, kind, size, overlap) == [] <==> Ink(content) == ""
  {
    TextConserves(content, kind, size, overlap);
    hide Ink, PiecesOf, WellCarried;
    if PiecesOf(content, kind, size, overlap) == [] {
      assert InkAll([]) == "";
    }
    if Ink(content) == "" {
      BlankHasNoPieces(content, kind, size, overlap);
    }
  }

  lemma TextConserves(content: string, kind: SourceType, size: nat, overlap: int)
    requires size > 0
    ensures Conserves(PiecesOf(content, kind, size, overlap), content, overlap)
  {
    hide Ink, Strip, ParagraphPieces, WikiPieces, AllPieces, Sections, WellCarried, Positions;
    var text := Strip(content);
    InkStrip(content);
    if text == "" {
      InkBlank(content);
      assert Bodies([]) == [] && InkAll([]) == "";
      NothingCarries(overlap);
    } else if kind.Wiki? {
      WikiConserves(text, size, overlap);
    } else if kind.ApiDoc? {
      var ps := Positions(Endpoint, text, 0);
      if ps == [] {
        WikiConserves(text, size, overlap);
      } else {
        SectionsConserve(Endpoint, text, ps, size, overlap);
      }
    } else {
      OnePieceConserves(text, overlap);
      ParagraphsConserve(text, size, overlap);
    }
  }

  lemma NothingCarries(overlap: int)
    ensures WellCarried([], overlap)
  {
  }

  lemma BlankHasNoPieces(content: string, kind: SourceType, size: nat, overlap: int)
    requires size > 0 && Ink(content) == ""
    ensures PiecesOf(content, kind, size, overlap) == []
  {
    StripOfBlank(content);
  }

  lemma StripOfBlank(s: string)
    requires Ink(s) == ""
    ensures Strip(s) == ""
  {
    InkLeftStripped(s);
    LeftStrippedHead(s);
    if LeftStripped(s) != "" {
      HeadInked(LeftStripped(s));
    }
  }

  lemma HeadInked(s: string)
    requires s != "" && !IsSpace(s[0])
    ensures Ink(s) != ""
  {
  }

  lemma {:induction false} LeftStrippedHead(s: string)
    ensures LeftStripped(s) == "" || !IsSpace(LeftStripped(s)[0])
  {
    if s != "" && IsSpace(s[0]) {
      LeftStrippedHead(s[1..]);
    }
  }

  // A wiki section over the limit keeps its header line with its first chunk.
  lemma HeaderStaysOnTop(section: string, size: nat, overlap: int)
    requires |section| > size
    ensures var pieces := WikiSection(section, size, overlap);
            pieces != [] && StartsWith(TextOf(pieces[0]), HeaderOf(section))
  {
    hide ParagraphPieces, HeaderOf, BodyOf;
  }

  // Sections break only at marks: no section but the preamble starts elsewhere.
  lemma {:induction false} SlicesStartAtMarks(text: string, ps: seq<nat>, k: nat)
    requires Ascending(text, ps) && k < |ps|
    ensures |Slices(text, ps)| == |ps|
    ensures Slices(text, ps)[k] == text[ps[k]..if k + 1 < |ps| then ps[k + 1] else |text|]
  {
    if |ps| > 1 {
      SlicesStartAtMarks(text, ps[1..], if k > 0 then k - 1 else 0);
    }
  }

  // ---- the methods ----

  method ChunkParagraphs(text: string, size: nat, overlap: int) returns (chunks: seq<string>)
    requires size > 0
    ensures chunks == Texts(ParagraphPieces(text, size, overlap))
  {
    chunks := MergeSegments(ParagraphsOf(text), size, overlap);
  }

  method ChunkWiki(text: string, size: nat, overlap: int) returns (result: seq<string>)
    requires size > 0
    ensures result == Texts(WikiPieces(text, size, overlap))
  {
    var ps := Positions(Header, text, 0);
    if ps == [] {
      result := ChunkParagraphs(text, size, overlap);
      return;
    }
    var sections := CutSections(text, ps);
    result := [];
    for i := 0 to |sections|
      invariant result == Texts(AllPieces(Header, sections[..i], size, overlap))
    {
      hide WikiSection, AllPieces;
      AllPiecesStep(Header, sections, i, size, overlap);
      if |sections[i]| <= size {
        result := result + [sections[i]];
      } else {
        var sub := ChunkLongSection(sections[i], size, overlap);
        result := result + sub;
      }
    }
    assert sections[..|sections|] == sections;
  }

  // A section over the limit: its header line stays with its first chunk.
  method ChunkLongSection(section: string, size: nat, overlap: int) returns (chunks: seq<string>)
    requires |section| > size
    ensures chunks == Texts(WikiSection(section, size, overlap))
  {
    hide ParagraphPieces, HeaderOf, BodyOf, EffectiveSize, Texts, Headed;
    var header := HeaderOf(section);
    var effective := EffectiveSize(size, header);
    chunks := ChunkParagraphs(BodyOf(section), effective, overlap);
    HeadedTexts(header, ParagraphPieces(BodyOf(section), effective, overlap));
    if chunks != [] {
      chunks := [header + "\n" + chunks[0]] + chunks[1..];
    } else {
      chunks := [header];
    }
  }

  lemma AllPiecesStep(mark: Mark, sections: seq<string>, i: nat, size: nat, overlap: int)
    requires size > 0 && i < |sections|
    ensures Texts(AllPieces(mark, sections[..i + 1], size, overlap))
         == Texts(AllPieces(mark, sections[..i], size, overlap))
            + Texts(SectionPieces(mark, sections[i], size, overlap))
    ensures |sections[i]| <= size ==> Texts(SectionPieces(mark, sections[i], size, overlap)) == [sections[i]]
  {
    hide ParagraphPieces;
    assert sections[..i + 1][..i] == sections[..i];
    TextsConcat(AllPieces(mark, sections[..i], size, overlap), SectionPieces(mark, sections[i], size, overlap));
    assert Texts([Piece("", sections[i])]) == [sections[i]];
  }

  lemma HeadedTexts(header: string, sub: seq<Piece>)
    ensures Texts(Headed(header, sub))
         == if Texts(sub) == [] then [header] else [header + "\n" + Texts(sub)[0]] + Texts(sub)[1..]
  {
    if sub == [] {
      assert Texts([Piece("", header)]) == [header];
    } else {
      assert Headed(header, sub)[1..] == sub[1..];
    }
  }

  method ChunkApiDoc(text: string, size: nat, overlap: int) returns (result: seq<string>)
    requires size > 0
    ensures result == Texts(ApiPieces(text, size, overlap))
  {
    var ps := Positions(Endpoint, text, 0);
    if ps == [] {
      result := ChunkWiki(text, size, overlap);
      return;
    }
    var sections := CutSections(text, ps);
    result := [];
    for i := 0 to |sections|
      invariant result == Texts(AllPieces(Endpoint, sections[..i], size, overlap))
    {
      hide ParagraphPieces;
      AllPiecesStep(Endpoint, sections, i, size, overlap);
      if |sections[i]| <= size {
        result := result + [sections[i]];
      } else {
        var sub := ChunkParagraphs(sections[i], size, overlap);
        result := result + sub;
      }
    }
    assert sections[..|sections|] == sections;
  }

  method ChunkContent(content: string, kind: SourceType, size: nat, overlap: int) returns (chunks: seq<string>)
    requires size > 0
    ensures chunks == Texts(PiecesOf(content, kind, size, overlap))
  {
    var text := Strip(content);
    if text == "" { return []; }
    match kind {
      case Wiki => chunks := ChunkWiki(text, size, overlap);
      case Jira =>
        if |text| <= size { return [text]; }
        chunks := ChunkParagraphs(text, size, overlap);
      case ApiDoc => chunks := ChunkApiDoc(text, size, overlap);
      case PlainText => chunks := ChunkParagraphs(text, size, overlap);
    }
  }
}
