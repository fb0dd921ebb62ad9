/** corpus/store.py and corpus/pipeline.py: the commands one ingest issues. */
module CorpusStore {
  import opened PointIdentity

  type Key = string

  // A point of the shared collection. Memories are not the corpus's.
  datatype Record =
    | Memory(text: string)
    | Chunk(source: string, ingest: string, workspace: string, index: nat, text: string, committed: bool)

  // The collection, the source records and the source index.
  datatype State = State(points: map<Key, Record>, tracked: map<string, nat>, listed: set<string>)

  // One ingest: its principal's workspace, its run id, and the document's chunks.
  datatype Ingest = Ingest(workspace: string, source: string, run: string, chunks: seq<string>)

  function KeyOf(ing: Ingest, j: nat): Key {
    RawId(ing.workspace, ing.source, ing.run, j)
  }

  function ChunkAt(ing: Ingest, j: nat, committed: bool): Record
    requires j < |ing.chunks|
  {
    Chunk(ing.source, ing.run, ing.workspace, j, ing.chunks[j], committed)
  }

  predicate OfRun(r: Record, ing: Ingest) {
    r.Chunk? && r.source == ing.source && r.ingest == ing.run
  }

  function Flipped(points: map<Key, Record>, ing: Ingest): map<Key, Record> {
    map k | k in points :: if OfRun(points[k], ing) then points[k].(committed := true) else points[k]
  }

  // The sweep's filter names the source and the run to spare, no workspace.
  predicate Sweeps(ing: Ingest, r: Record) {
    r.Chunk? && r.source == ing.source && r.ingest != ing.run
  }

  function Swept(points: map<Key, Record>, ing: Ingest): map<Key, Record> {
    map k | k in points && !Sweeps(ing, points[k]) :: points[k]
  }

  // Stage every chunk, commit, sweep, record the source, index it. An empty
  // document issues no command at all.
  function Total(ing: Ingest): nat {
    if ing.chunks == [] then 0 else |ing.chunks| + 4
  }

  function Command(st: State, ing: Ingest, i: nat): State
    requires i < Total(ing)
  {
    var n := |ing.chunks|;
    if i < n then st.(points := st.points[KeyOf(ing, i) := ChunkAt(ing, i, false)])
    else if i == n then st.(points := Flipped(st.points, ing))
    else if i == n + 1 then st.(points := Swept(st.points, ing))
    else if i == n + 2 then st.(tracked := st.tracked[ing.source := n])
    else st.(listed := st.listed + {ing.source})
  }

  // Commands i to k-1.
  function CommandsFrom(st: State, ing: Ingest, i: nat, k: nat): State
    requires k <= Total(ing)
    decreases k
  {
    if k <= i then st else Command(CommandsFrom(st, ing, i, k - 1), ing, k - 1)
  }

  function Commands(st: State, ing: Ingest, k: nat): State
    requires k <= Total(ing)
  {
    CommandsFrom(st, ing, 0, k)
  }

  // ---- what the commands come to ----

  predicate Own(ing: Ingest, key: Key, n: nat) {
    exists j: nat :: j < n && key == KeyOf(ing, j)
  }

  // A chunk's id is hashed from the workspace, source and run of its ingest, and its
  // place in the document.
  lemma KeyIs(ing: Ingest, j: nat)
    ensures KeyOf(ing, j) == "corpus|" + ing.workspace + "|" + ing.source + "|" + ing.run + "|" + Decimal(j)
  {
    IdIs(ing.workspace, ing.source, ing.run, j);
    hide Decimal;
  }

  lemma OwnKeysDiffer(ing: Ingest, i: nat, j: nat)
    requires Bare(ing.workspace) && Bare(ing.run) && KeyOf(ing, i) == KeyOf(ing, j)
    ensures i == j
  {
    IdsAreDistinct(ing.workspace, ing.source, ing.run, i, ing.workspace, ing.source, ing.run, j);
  }

  // The first k upserts add the first k chunks, not yet committed, and leave every
  // other point, the records and the index as they were.
  lemma {:induction false} StagingMeans(st: State, ing: Ingest, k: nat)
    requires Bare(ing.workspace) && Bare(ing.run) && k <= |ing.chunks|
    ensures var after := Commands(st, ing, k);
            && after.tracked == st.tracked && after.listed == st.listed
            && (forall key :: key in after.points <==> key in st.points || Own(ing, key, k))
            && (forall key :: key in st.points && !Own(ing, key, k) ==> after.points[key] == st.points[key])
            && (forall j: nat :: j < k ==>
              && KeyOf(ing, j) in after.points
              && after.points[KeyOf(ing, j)]
                 == Chunk(ing.source, ing.run, ing.workspace, j, ing.chunks[j], false))
  {
    hide KeyOf;
    if k > 0 {
      StagingMeans(st, ing, k - 1);
      OwnGrows(ing, k);
      hide Own;
      forall j: nat | j < k - 1 ensures KeyOf(ing, j) != KeyOf(ing, k - 1) {
        if KeyOf(ing, j) == KeyOf(ing, k - 1) {
          OwnKeysDiffer(ing, j, k - 1);
        }
      }
    }
  }

  lemma OwnGrows(ing: Ingest, k: nat)
    requires k > 0
    ensures forall key :: Own(ing, key, k) <==> Own(ing, key, k - 1) || key == KeyOf(ing, k - 1)
  {
    hide KeyOf;
  }

  // A whole ingest: its chunks, each with its text and stamps, committed; of the
  // other points, all but the source's chunks of other runs, and those of its own
  // run committed too; the record counts the chunks and the source is listed.
  lemma IngestMeans(st: State, ing: Ingest, key: Key)
    requires Bare(ing.workspace) && Bare(ing.run) && ing.chunks != []
    ensures var after := Commands(st, ing, |ing.chunks| + 4);
            && after.tracked == st.tracked[ing.source := |ing.chunks|]
            && after.listed == st.listed + {ing.source}
            && (forall j: nat :: j < |ing.chunks| ==>
              && KeyOf(ing, j) in after.points
              && after.points[KeyOf(ing, j)]
                 == Chunk(ing.source, ing.run, ing.workspace, j, ing.chunks[j], true))
            && (!Own(ing, key, |ing.chunks|) ==>
              (key in after.points <==>
                key in st.points
                && !(st.points[key].Chunk? && st.points[key].source == ing.source && st.points[key].ingest != ing.run)))
            && (key in after.points && !Own(ing, key, |ing.chunks|) ==>
              after.points[key] ==
                if st.points[key].Chunk? && st.points[key].source == ing.source
                then st.points[key].(committed := true) else st.points[key])
  {
    hide KeyOf, Own;
    var n := |ing.chunks|;
    var staged := Commands(st, ing, n);
    StagingMeans(st, ing, n);
    LastCommands(st, ing);
  }

  lemma LastCommands(st: State, ing: Ingest)
    requires ing.chunks != []
    ensures var staged := Commands(st, ing, |ing.chunks|);
            Commands(st, ing, |ing.chunks| + 4)
            == State(Swept(Flipped(staged.points, ing), ing), staged.tracked[ing.source := |ing.chunks|],
                     staged.listed + {ing.source})
  {
    hide Swept, Flipped;
    var n := |ing.chunks|;
    assert Commands(st, ing, n + 1) == Command(Commands(st, ing, n), ing, n);
    assert Commands(st, ing, n + 2) == Command(Commands(st, ing, n + 1), ing, n + 1);
    assert Commands(st, ing, n + 3) == Command(Commands(st, ing, n + 2), ing, n + 2);
    assert Commands(st, ing, n + 4) == Command(Commands(st, ing, n + 3), ing, n + 3);
  }

  class Store {
    var points: map<Key, Record>
    var tracked: map<string, nat>
    var listed: set<string>

    function View(): State
      reads this
    {
      State(points, tracked, listed)
    }

    constructor ()
      ensures View() == State(map[], map[], {})
    {
      points, tracked, listed := map[], map[], {};
    }

    // store_chunks; only the first `budget` upserts are answered.
    method StoreChunks(ing: Ingest, budget: nat) returns (stored: nat)
      modifies this`points
      ensures stored == if budget < |ing.chunks| then budget else |ing.chunks|
      ensures View() == Commands(old(View()), ing, stored)
    {
      stored := 0;
      while stored < |ing.chunks| && stored < budget
        invariant stored <= |ing.chunks| && stored <= budget
        invariant View() == Commands(old(View()), ing, stored)
      {
        points := points[KeyOf(ing, stored) := ChunkAt(ing, stored, false)];
        stored := stored + 1;
      }
    }

    method CommitGeneration(ing: Ingest)
      modifies this`points
      ensures points == Flipped(old(points), ing)
    {
      points := Flipped(points, ing);
    }

    method DeleteOtherRuns(ing: Ingest)
      modifies this`points
      ensures points == Swept(old(points), ing)
    {
      points := Swept(points, ing);
    }

    // ingest_document, whose process or whose stores fail after `budget` commands;
    // what the commands before did stays done. Without a vector client it starts
    // at the tracking, without a Redis client it ends there.
    method IngestDocument(ing: Ingest, budget: nat, vectors: bool, records: bool) returns (finished: bool)
      modifies this
      ensures var first, last := FirstCommand(ing, vectors), LastCommand(ing, records);
              && (finished <==> first + budget >= last)
              && View() == CommandsFrom(old(View()), ing, first, if finished then last else first + budget)
      ensures ing.chunks == [] ==> finished && View() == old(View())
      ensures !vectors ==> points == old(points)
      ensures finished && vectors && ing.chunks != [] ==>
        points == Commands(old(View()), ing, |ing.chunks| + 4).points
      ensures !records ==> tracked == old(tracked) && listed == old(listed)
      ensures finished && records && ing.chunks != [] ==>
        tracked == old(tracked)[ing.source := |ing.chunks|] && listed == old(listed) + {ing.source}
    {
      var n := |ing.chunks|;
      if n == 0 {
        return true;
      }
      ghost var start := View();
      LastCommands(start, ing);
      if vectors {
        var stored := StoreChunks(ing, budget);
        if budget <= n { return false; }
        CommitGeneration(ing);
        assert View() == Commands(start, ing, n + 1);
        if budget == n + 1 { return false; }
        DeleteOtherRuns(ing);
        assert View() == Commands(start, ing, n + 2);
      }
      var left := if vectors then budget - (n + 2) else budget;
      ghost var first := FirstCommand(ing, vectors);
      if !records { return true; }
      assert View() == CommandsFrom(start, ing, first, n + 2);
      if left == 0 { return false; }
      tracked := tracked[ing.source := n];
      assert View() == CommandsFrom(start, ing, first, n + 3);
      if left == 1 { return false; }
      listed := listed + {ing.source};
      assert View() == CommandsFrom(start, ing, first, n + 4);
      return true;
    }
  }

  function FirstCommand(ing: Ingest, vectors: bool): nat {
    if vectors || ing.chunks == [] then 0 else |ing.chunks| + 2
  }

  function LastCommand(ing: Ingest, records: bool): nat {
    if ing.chunks == [] then 0 else if records then |ing.chunks| + 4 else |ing.chunks| + 2
  }
}
