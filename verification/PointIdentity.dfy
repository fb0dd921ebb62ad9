/** corpus_point_id: the string a chunk's point id is hashed from. */
module PointIdentity {

  predicate Bare(text: string) { '|' !in text }

  function Digit(n: nat): char
    requires n < 10
  {
    '0' + n as char
  }

  function Decimal(n: nat): string {
    if n < 10 then [Digit(n)] else Decimal(n / 10) + [Digit(n % 10)]
  }

  function RawId(workspace: string, source: string, ingest: string, index: nat): string {
    "corpus|" + (workspace + "|" + (source + "|" + (ingest + ("|" + Decimal(index)))))
  }

  function DecimalValue(text: string): int {
    if text == "" then 0 else DecimalValue(text[..|text| - 1]) * 10 + (text[|text| - 1] as int - '0' as int)
  }

  lemma {:induction false} DecimalReads(n: nat)
    ensures DecimalValue(Decimal(n)) == n && Bare(Decimal(n))
  {
    if n < 10 {
      assert Decimal(n)[..0] == "";
    } else {
      DecimalReads(n / 10);
      assert Decimal(n)[..|Decimal(n)| - 1] == Decimal(n / 10);
    }
  }

  // Domain, workspace, source, run and the index in decimal, with bars between.
  lemma IdIs(workspace: string, source: string, ingest: string, index: nat)
    ensures RawId(workspace, source, ingest, index)
         == "corpus|" + workspace + "|" + source + "|" + ingest + "|" + Decimal(index)
    ensures Decimal(index) != "" && (Decimal(index)[0] == '0' ==> index == 0)
    ensures forall c :: c in Decimal(index) ==> '0' <= c <= '9'
  {
    var last := "|" + Decimal(index);
    assert "corpus|" + (workspace + "|" + (source + "|" + (ingest + last)))
        == "corpus|" + workspace + "|" + source + "|" + ingest + last;
    assert "corpus|" + workspace + "|" + source + "|" + ingest + last
        == "corpus|" + workspace + "|" + source + "|" + ingest + "|" + Decimal(index);
    DecimalDigits(index);
  }

  lemma {:induction false} DecimalDigits(n: nat)
    ensures Decimal(n) != "" && (Decimal(n)[0] == '0' ==> n == 0)
    ensures forall c :: c in Decimal(n) ==> '0' <= c <= '9'
  {
    if n >= 10 {
      DecimalDigits(n / 10);
    }
  }

  // A bare field ends at the first bar after it.
  lemma FirstField(a: string, rest: string, b: string, others: string)
    requires Bare(a) && Bare(b) && a + "|" + rest == b + "|" + others
    ensures a == b && rest == others
  {
    var s, t := a + "|" + rest, b + "|" + others;
    assert s[|a|] == '|' && t[|b|] == '|';
    assert forall k :: 0 <= k < |a| ==> s[k] in a;
    assert forall k :: 0 <= k < |b| ==> t[k] in b;
    assert |a| == |b|;
    assert s[..|a|] == a && t[..|b|] == b;
    assert s[|a| + 1..] == rest && t[|b| + 1..] == others;
  }

  // And a bare field starts at the last bar before it.
  lemma LastField(first: string, a: string, others: string, b: string)
    requires Bare(a) && Bare(b) && first + "|" + a == others + "|" + b
    ensures first == others && a == b
  {
    var s, t := first + "|" + a, others + "|" + b;
    assert s[|first|] == '|' && t[|others|] == '|';
    assert forall k :: |first| < k < |s| ==> s[k] == a[k - |first| - 1];
    assert forall k :: |others| < k < |t| ==> t[k] == b[k - |others| - 1];
    assert |first| == |others|;
    assert s[..|first|] == first && t[..|others|] == others;
    assert s[|first| + 1..] == a && t[|others| + 1..] == b;
  }

  // Whatever bars the source names hold, two chunks share an id only if they are
  // the same chunk of the same run.
  lemma IdsAreDistinct(ws1: string, src1: string, run1: string, i: nat, ws2: string, src2: string, run2: string, j: nat)
    requires Bare(ws1) && Bare(ws2) && Bare(run1) && Bare(run2)
    requires RawId(ws1, src1, run1, i) == RawId(ws2, src2, run2, j)
    ensures ws1 == ws2 && src1 == src2 && run1 == run2 && i == j
  {
    DecimalReads(i);
    DecimalReads(j);
    var tail1, tail2 := src1 + "|" + (run1 + ("|" + Decimal(i))), src2 + "|" + (run2 + ("|" + Decimal(j)));
    assert RawId(ws1, src1, run1, i)[7..] == ws1 + "|" + tail1 && RawId(ws2, src2, run2, j)[7..] == ws2 + "|" + tail2;
    FirstField(ws1, tail1, ws2, tail2);
    assert tail1 == (src1 + "|" + run1) + "|" + Decimal(i) && tail2 == (src2 + "|" + run2) + "|" + Decimal(j);
    LastField(src1 + "|" + run1, Decimal(i), src2 + "|" + run2, Decimal(j));
    LastField(src1, run1, src2, run2);
  }

  // Bare workspaces are needed: a bar may move between workspace and name.
  lemma BarsInWorkspacesCollide(run: string, i: nat)
    ensures RawId("a|b", "c", run, i) == RawId("a", "b|c", run, i)
  {
    var tail := run + ("|" + Decimal(i));
    assert ("a|b") + "|" + ("c" + "|" + tail) == "a" + "|" + ("b|c" + "|" + tail);
  }
}
