/** Ingests of many sources, one at a time for each source, any of them stopped
    between any two commands: what recall can see in between and afterwards. */
module GenerationSwap {
  import opened PointIdentity
  import opened CorpusStore

  // An ingest and how many of its commands have been carried out.
  datatype Progress = Progress(ing: Ingest, done: nat)

  datatype World = World(st: State, log: seq<Progress>)

  datatype Step = Begin(ing: Ingest) | Advance(i: nat)

  ghost predicate LastOfSource(log: seq<Progress>, i: nat) {
    i < |log| && forall i' :: i < i' < |log| ==> log[i'].ing.source != log[i].ing.source
  }

  // A uuid names no earlier run and occurs in no stored key.
  ghost predicate FreshRun(w: World, ing: Ingest) {
    && (forall i :: 0 <= i < |w.log| ==> w.log[i].ing.run != ing.run)
    && (forall k :: k in w.st.points ==> !(w.st.points[k].Chunk? && w.st.points[k].ingest == ing.run))
    && (forall j: nat :: KeyOf(ing, j) !in w.st.points)
  }

  // An ingest that another of its source has followed is dead where it stopped.
  ghost predicate Enabled(w: World, step: Step) {
    match step
    case Begin(ing) => ing.chunks != [] && Bare(ing.workspace) && Bare(ing.run) && FreshRun(w, ing)
    case Advance(i) => LastOfSource(w.log, i) && w.log[i].done < Total(w.log[i].ing)
  }

  ghost function Next(w: World, step: Step): World {
    if !Enabled(w, step) then w
    else
      match step
      case Begin(ing) => World(w.st, w.log + [Progress(ing, 0)])
      case Advance(i) =>
        var p := w.log[i];
        World(Command(w.st, p.ing, p.done), w.log[i := p.(done := p.done + 1)])
  }

  ghost function Run(w: World, steps: seq<Step>): World
    decreases |steps|
  {
    if steps == [] then w else Next(Run(w, steps[..|steps| - 1]), steps[|steps| - 1])
  }

  // ---- what the log says the collection holds ----

  function Size(p: Progress): nat { |p.ing.chunks| }

  predicate IsCommitted(p: Progress) { p.done > Size(p) }

  predicate HasSwept(p: Progress) { p.done >= Size(p) + 2 }

  predicate HasTracked(p: Progress) { p.done >= Size(p) + 3 }

  ghost predicate Overtaken(log: seq<Progress>, i: nat) {
    exists i' :: i < i' < |log| && i < |log| && log[i'].ing.source == log[i].ing.source && HasSwept(log[i'])
  }

  ghost predicate Alive(log: seq<Progress>, i: nat, j: nat) {
    i < |log| && j < Size(log[i]) && j < log[i].done && !Overtaken(log, i)
  }

  function Expected(p: Progress, j: nat): Record
    requires j < Size(p)
  {
    ChunkAt(p.ing, j, IsCommitted(p))
  }

  ghost predicate BaseSwept(log: seq<Progress>, r: Record) {
    r.Chunk? && exists i :: 0 <= i < |log| && log[i].ing.source == r.source && HasSwept(log[i])
  }

  ghost predicate LogOk(log: seq<Progress>, base: map<Key, Record>) {
    && (forall i :: 0 <= i < |log| ==>
      Size(log[i]) > 0 && log[i].done <= Total(log[i].ing) && Bare(log[i].ing.workspace) && Bare(log[i].ing.run))
    && (forall i, i' :: 0 <= i < i' < |log| ==> log[i].ing.run != log[i'].ing.run)
    && (forall i, k :: 0 <= i < |log| && k in base ==> !(base[k].Chunk? && base[k].ingest == log[i].ing.run))
    && (forall i, j: nat :: 0 <= i < |log| ==> KeyOf(log[i].ing, j) !in base)
  }

  ghost predicate HoldsAlive(points: map<Key, Record>, log: seq<Progress>) {
    forall i: nat, j: nat :: Alive(log, i, j) ==>
      KeyOf(log[i].ing, j) in points && points[KeyOf(log[i].ing, j)] == Expected(log[i], j)
  }

  ghost predicate HoldsBase(points: map<Key, Record>, log: seq<Progress>, base: map<Key, Record>) {
    forall k :: k in base && !BaseSwept(log, base[k]) ==> k in points && points[k] == base[k]
  }

  ghost predicate Accounted(log: seq<Progress>, base: map<Key, Record>, k: Key) {
    || (k in base && !BaseSwept(log, base[k]))
    || exists i: nat, j: nat :: Alive(log, i, j) && k == KeyOf(log[i].ing, j)
  }

  // The collection is exactly what the log accounts for, beside what `base` held
  // before the first of these ingests and no sweep of its source has removed.
  ghost predicate Matches(points: map<Key, Record>, log: seq<Progress>, base: map<Key, Record>) {
    && HoldsAlive(points, log) && HoldsBase(points, log, base)
    && forall k :: k in points ==> Accounted(log, base, k)
  }

  // ---- one command keeps the account ----

  lemma KeysDiffer(log: seq<Progress>, base: map<Key, Record>, i: nat, j: nat, i': nat, j': nat)
    requires LogOk(log, base) && i < |log| && i' < |log| && KeyOf(log[i].ing, j) == KeyOf(log[i'].ing, j')
    ensures i == i' && j == j'
  {
    var a, b := log[i].ing, log[i'].ing;
    IdsAreDistinct(a.workspace, a.source, a.run, j, b.workspace, b.source, b.run, j');
  }

  lemma OvertakenKept(log: seq<Progress>, i: nat, done: nat, o: nat)
    requires i < |log| && (done >= Size(log[i]) + 2 ==> HasSwept(log[i])) && done >= log[i].done
    ensures Overtaken(log[i := log[i].(done := done)], o) <==> Overtaken(log, o)
  {
    var after := log[i := log[i].(done := done)];
    if Overtaken(log, o) {
      var i' :| o < i' < |log| && log[i'].ing.source == log[o].ing.source && HasSwept(log[i']);
      assert HasSwept(after[i']) && after[i'].ing.source == after[o].ing.source;
    }
    if Overtaken(after, o) {
      var i' :| o < i' < |after| && after[i'].ing.source == after[o].ing.source && HasSwept(after[i']);
      assert HasSwept(log[i']) && log[i'].ing.source == log[o].ing.source;
    }
  }

  lemma BaseSweptKept(log: seq<Progress>, i: nat, done: nat, r: Record)
    requires i < |log| && (done >= Size(log[i]) + 2 ==> HasSwept(log[i])) && done >= log[i].done
    ensures BaseSwept(log[i := log[i].(done := done)], r) <==> BaseSwept(log, r)
  {
    var after := log[i := log[i].(done := done)];
    if BaseSwept(log, r) {
      var i' :| 0 <= i' < |log| && log[i'].ing.source == r.source && HasSwept(log[i']);
      assert HasSwept(after[i']) && after[i'].ing.source == r.source;
    }
    if BaseSwept(after, r) {
      var i' :| 0 <= i' < |after| && after[i'].ing.source == r.source && HasSwept(after[i']);
      assert HasSwept(log[i']) && log[i'].ing.source == r.source;
    }
  }

  function Advanced(log: seq<Progress>, i: nat): seq<Progress>
    requires i < |log|
  {
    log[i := log[i].(done := log[i].done + 1)]
  }

  ghost predicate CanAdvance(w: World, base: map<Key, Record>, i: nat) {
    LogOk(w.log, base) && Matches(w.st.points, w.log, base) && LastOfSource(w.log, i)
    && w.log[i].done < Total(w.log[i].ing)
  }

  lemma LogStaysOk(log: seq<Progress>, base: map<Key, Record>, i: nat)
    requires LogOk(log, base) && i < |log| && log[i].done < Total(log[i].ing)
    ensures LogOk(Advanced(log, i), base)
  {
  }

  lemma NotOvertaken(log: seq<Progress>, i: nat)
    requires LastOfSource(log, i)
    ensures !Overtaken(log, i)
  {
  }

  lemma StageMatches(w: World, base: map<Key, Record>, i: nat)
    requires CanAdvance(w, base, i) && w.log[i].done < Size(w.log[i])
    ensures Matches(Command(w.st, w.log[i].ing, w.log[i].done).points, Advanced(w.log, i), base)
  {
    hide Overtaken, BaseSwept;
    var p, after := w.log[i], Advanced(w.log, i);
    var key := KeyOf(p.ing, p.done);
    var points := w.st.points[key := ChunkAt(p.ing, p.done, false)];
    NotOvertaken(w.log, i);
    forall o: nat ensures Overtaken(after, o) <==> Overtaken(w.log, o) {
      OvertakenKept(w.log, i, p.done + 1, o);
    }
    forall r ensures BaseSwept(after, r) <==> BaseSwept(w.log, r) {
      BaseSweptKept(w.log, i, p.done + 1, r);
    }
    forall o: nat, j: nat | Alive(after, o, j)
      ensures KeyOf(after[o].ing, j) in points && points[KeyOf(after[o].ing, j)] == Expected(after[o], j)
    {
      if KeyOf(after[o].ing, j) == key {
        KeysDiffer(w.log, base, o, j, i, p.done);
      } else {
        assert Alive(w.log, o, j);
      }
    }
    forall k | k in points ensures Accounted(after, base, k) {
      if k == key {
        assert Alive(after, i, p.done);
      } else {
        StillAccounted(w.log, i, base, k);
      }
    }
  }

  lemma StillAccounted(log: seq<Progress>, i: nat, base: map<Key, Record>, k: Key)
    requires i < |log| && Accounted(log, base, k) && !(log[i].done == Size(log[i]) + 1)
    ensures Accounted(Advanced(log, i), base, k)
  {
    var after := Advanced(log, i);
    if k in base && !BaseSwept(log, base[k]) {
      BaseSweptKept(log, i, log[i].done + 1, base[k]);
    } else {
      var o: nat, j: nat :| Alive(log, o, j) && k == KeyOf(log[o].ing, j);
      OvertakenKept(log, i, log[i].done + 1, o);
      assert Alive(after, o, j) && after[o].ing == log[o].ing;
    }
  }

  lemma CommitMatches(w: World, base: map<Key, Record>, i: nat)
    requires CanAdvance(w, base, i) && w.log[i].done == Size(w.log[i])
    ensures Matches(Command(w.st, w.log[i].ing, w.log[i].done).points, Advanced(w.log, i), base)
  {
    hide HoldsAlive, HoldsBase, Accounted, Flipped, LogOk;
    CommitFlips(w, base, i);
    CommitSparesBase(w, base, i);
    forall k | k in Flipped(w.st.points, w.log[i].ing) ensures Accounted(Advanced(w.log, i), base, k) {
      FlipKeepsKeys(w.st.points, w.log[i].ing);
      StillAccounted(w.log, i, base, k);
    }
  }

  lemma FlipKeepsKeys(points: map<Key, Record>, ing: Ingest)
    ensures Flipped(points, ing).Keys == points.Keys
  {
  }

  lemma CommitSparesBase(w: World, base: map<Key, Record>, i: nat)
    requires CanAdvance(w, base, i) && w.log[i].done == Size(w.log[i])
    ensures HoldsBase(Flipped(w.st.points, w.log[i].ing), Advanced(w.log, i), base)
  {
    hide BaseSwept, HoldsAlive, LogOk, Accounted;
    forall k | k in base && !BaseSwept(Advanced(w.log, i), base[k])
      ensures !BaseSwept(w.log, base[k]) && !OfRun(base[k], w.log[i].ing)
    {
      BaseSweptKept(w.log, i, w.log[i].done + 1, base[k]);
      NotOfRun(w.log, base, i, k);
    }
  }

  lemma NotOfRun(log: seq<Progress>, base: map<Key, Record>, i: nat, k: Key)
    requires LogOk(log, base) && i < |log| && k in base
    ensures !OfRun(base[k], log[i].ing)
  {
  }

  lemma CommitFlips(w: World, base: map<Key, Record>, i: nat)
    requires CanAdvance(w, base, i) && w.log[i].done == Size(w.log[i])
    ensures HoldsAlive(Flipped(w.st.points, w.log[i].ing), Advanced(w.log, i))
  {
    hide Overtaken, BaseSwept, HoldsBase, Accounted, KeyOf;
    var p, after := w.log[i], Advanced(w.log, i);
    var points := Flipped(w.st.points, p.ing);
    forall o: nat, j: nat | Alive(after, o, j)
      ensures KeyOf(after[o].ing, j) in points && points[KeyOf(after[o].ing, j)] == Expected(after[o], j)
    {
      OvertakenKept(w.log, i, p.done + 1, o);
      assert Alive(w.log, o, j);
      assert o != i ==> w.log[o].ing.run != p.ing.run;
    }
  }

  lemma SweepMatches(w: World, base: map<Key, Record>, i: nat)
    requires CanAdvance(w, base, i) && w.log[i].done == Size(w.log[i]) + 1
    ensures Matches(Command(w.st, w.log[i].ing, w.log[i].done).points, Advanced(w.log, i), base)
  {
    var p, after := w.log[i], Advanced(w.log, i);
    var points := Swept(w.st.points, p.ing);
    assert HasSwept(after[i]);
    forall o: nat, j: nat | Alive(after, o, j)
      ensures KeyOf(after[o].ing, j) in points && points[KeyOf(after[o].ing, j)] == Expected(after[o], j)
    {
      SweepOvertakes(w.log, i, o);
      assert Alive(w.log, o, j);
    }
    forall k | k in base && !BaseSwept(after, base[k]) ensures k in points && points[k] == base[k] {
      SweepTakesBase(w.log, i, base[k]);
    }
    forall k | k in points ensures Accounted(after, base, k) {
      assert Accounted(w.log, base, k);
      if k in base && !BaseSwept(w.log, base[k]) {
        SweepTakesBase(w.log, i, base[k]);
      } else {
        var o: nat, j: nat :| Alive(w.log, o, j) && k == KeyOf(w.log[o].ing, j);
        SweepOvertakes(w.log, i, o);
        assert o != i ==> w.log[o].ing.run != p.ing.run;
        assert Alive(after, o, j);
      }
    }
  }

  // The sweep overtakes exactly the other runs of its source.
  lemma SweepOvertakes(log: seq<Progress>, i: nat, o: nat)
    requires LastOfSource(log, i) && log[i].done == Size(log[i]) + 1 && o < |log|
    ensures Overtaken(Advanced(log, i), o)
            <==> Overtaken(log, o) || (o != i && log[o].ing.source == log[i].ing.source)
  {
    var after := Advanced(log, i);
    assert HasSwept(after[i]);
    if Overtaken(log, o) {
      var i' :| o < i' < |log| && log[i'].ing.source == log[o].ing.source && HasSwept(log[i']);
      assert HasSwept(after[i']) && after[i'].ing.source == after[o].ing.source;
    }
    if o != i && log[o].ing.source == log[i].ing.source {
      assert after[i].ing.source == after[o].ing.source && o < i;
    }
    if Overtaken(after, o) {
      var i' :| o < i' < |after| && after[i'].ing.source == after[o].ing.source && HasSwept(after[i']);
      assert i' != i ==> HasSwept(log[i']) && log[i'].ing.source == log[o].ing.source;
    }
  }

  lemma SweepTakesBase(log: seq<Progress>, i: nat, r: Record)
    requires i < |log| && log[i].done == Size(log[i]) + 1
    ensures BaseSwept(Advanced(log, i), r) <==> BaseSwept(log, r) || (r.Chunk? && r.source == log[i].ing.source)
  {
    var after := Advanced(log, i);
    assert HasSwept(after[i]);
    if BaseSwept(log, r) {
      var i' :| 0 <= i' < |log| && log[i'].ing.source == r.source && HasSwept(log[i']);
      assert HasSwept(after[i']) && after[i'].ing.source == r.source;
    }
    if BaseSwept(after, r) {
      var i' :| 0 <= i' < |after| && after[i'].ing.source == r.source && HasSwept(after[i']);
      assert i' != i ==> HasSwept(log[i']) && log[i'].ing.source == r.source;
    }
  }

  lemma TrackMatches(w: World, base: map<Key, Record>, i: nat)
    requires CanAdvance(w, base, i) && w.log[i].done > Size(w.log[i]) + 1
    ensures Matches(w.st.points, Advanced(w.log, i), base)
  {
    hide Overtaken, BaseSwept;
    var p, after := w.log[i], Advanced(w.log, i);
    forall o: nat, j: nat | Alive(after, o, j)
      ensures Alive(w.log, o, j) && Expected(after[o], j) == Expected(w.log[o], j)
    {
      OvertakenKept(w.log, i, p.done + 1, o);
    }
    forall k | k in base && !BaseSwept(after, base[k]) ensures !BaseSwept(w.log, base[k]) {
      BaseSweptKept(w.log, i, p.done + 1, base[k]);
    }
    forall k | k in w.st.points ensures Accounted(after, base, k) {
      StillAccounted(w.log, i, base, k);
    }
  }

  lemma BeginOvertakesNone(log: seq<Progress>, ing: Ingest, o: nat, r: Record)
    requires ing.chunks != []
    ensures o < |log| ==> (Overtaken(log + [Progress(ing, 0)], o) <==> Overtaken(log, o))
    ensures BaseSwept(log + [Progress(ing, 0)], r) <==> BaseSwept(log, r)
  {
    var after := log + [Progress(ing, 0)];
    assert !HasSwept(after[|log|]);
    if o < |log| && Overtaken(log, o) {
      var i' :| o < i' < |log| && log[i'].ing.source == log[o].ing.source && HasSwept(log[i']);
      assert HasSwept(after[i']) && after[i'].ing.source == after[o].ing.source;
    }
    if BaseSwept(log, r) {
      var i' :| 0 <= i' < |log| && log[i'].ing.source == r.source && HasSwept(log[i']);
      assert HasSwept(after[i']) && after[i'].ing.source == r.source;
    }
  }

  lemma BeginMatches(w: World, base: map<Key, Record>, ing: Ingest)
    requires Matches(w.st.points, w.log, base) && ing.chunks != []
    ensures Matches(w.st.points, w.log + [Progress(ing, 0)], base)
  {
    hide Overtaken, BaseSwept, KeyOf;
    var after := w.log + [Progress(ing, 0)];
    forall o: nat, j: nat | Alive(after, o, j) ensures Alive(w.log, o, j) && after[o] == w.log[o] {
      BeginOvertakesNone(w.log, ing, o, Memory(""));
    }
    forall k | k in base && !BaseSwept(after, base[k]) ensures !BaseSwept(w.log, base[k]) {
      BeginOvertakesNone(w.log, ing, 0, base[k]);
    }
    forall k | k in w.st.points ensures Accounted(after, base, k) {
      BeginAccounts(w.log, base, ing, k);
    }
  }

  lemma BeginAccounts(log: seq<Progress>, base: map<Key, Record>, ing: Ingest, k: Key)
    requires Accounted(log, base, k) && ing.chunks != []
    ensures Accounted(log + [Progress(ing, 0)], base, k)
  {
    hide Overtaken, BaseSwept, KeyOf;
    if k in base && !BaseSwept(log, base[k]) {
      BeginOvertakesNone(log, ing, 0, base[k]);
    } else {
      var o: nat, j: nat :| Alive(log, o, j) && k == KeyOf(log[o].ing, j);
      BeginOvertakesNone(log, ing, o, Memory(""));
      assert Alive(log + [Progress(ing, 0)], o, j);
    }
  }

  // ---- whole runs ----

  // A run id drawn afresh occurs nowhere in what the collection started with.
  ghost predicate FreshToBase(base: map<Key, Record>, step: Step) {
    step.Begin? ==>
      && (forall k :: k in base ==> !(base[k].Chunk? && base[k].ingest == step.ing.run))
      && (forall j: nat :: KeyOf(step.ing, j) !in base)
  }

  lemma StepMatches(w: World, base: map<Key, Record>, step: Step)
    requires LogOk(w.log, base) && Matches(w.st.points, w.log, base) && Enabled(w, step) && FreshToBase(base, step)
    ensures LogOk(Next(w, step).log, base) && Matches(Next(w, step).st.points, Next(w, step).log, base)
  {
    hide Matches, Overtaken;
    match step
    case Begin(ing) =>
      BeginMatches(w, base, ing);
    case Advance(i) =>
      var p := w.log[i];
      LogStaysOk(w.log, base, i);
      if p.done < Size(p) {
        StageMatches(w, base, i);
      } else if p.done == Size(p) {
        CommitMatches(w, base, i);
      } else if p.done == Size(p) + 1 {
        SweepMatches(w, base, i);
      } else {
        TrackMatches(w, base, i);
      }
  }

  ghost predicate Opening(w: World) {
    w.log == []
  }

  // In every run, whatever was started and wherever it stopped, the collection
  // holds exactly what the log accounts for.
  lemma {:induction false} CollectionFollowsTheLog(w: World, steps: seq<Step>)
    requires Opening(w) && forall s :: s in steps ==> FreshToBase(w.st.points, s)
    ensures LogOk(Run(w, steps).log, w.st.points)
    ensures Matches(Run(w, steps).st.points, Run(w, steps).log, w.st.points)
    decreases |steps|
  {
    if steps == [] {
      assert forall r :: !BaseSwept(w.log, r);
    } else {
      var before := steps[..|steps| - 1];
      CollectionFollowsTheLog(w, before);
      hide Matches, LogOk;
      if Enabled(Run(w, before), steps[|steps| - 1]) {
        StepMatches(Run(w, before), w.st.points, steps[|steps| - 1]);
      }
    }
  }

  function IngestSteps(ing: Ingest, i: nat, k: nat): seq<Step> {
    [Begin(ing)] + seq(k, _ => Advance(i))
  }

  // An ingest_document with both its stores, cut off after k commands, is one of
  // these runs.
  lemma {:induction false} IngestIsARun(w: World, ing: Ingest, k: nat)
    requires Enabled(w, Begin(ing)) && k <= Total(ing)
    ensures Run(w, IngestSteps(ing, |w.log|, k)) == World(Commands(w.st, ing, k), w.log + [Progress(ing, k)])
  {
    hide FreshRun;
    var steps := IngestSteps(ing, |w.log|, k);
    if k == 0 {
      assert steps == [Begin(ing)] && steps[..0] == [];
    } else {
      IngestIsARun(w, ing, k - 1);
      assert steps[..|steps| - 1] == IngestSteps(ing, |w.log|, k - 1) && steps[|steps| - 1] == Advance(|w.log|);
    }
  }

  // ---- what recall sees ----

  // Recall's generation guard excludes what is staged and not committed.
  predicate Recallable(r: Record) { r.Chunk? ==> r.committed }

  function Recall(points: map<Key, Record>): map<Key, Record> {
    map k | k in points && Recallable(points[k]) :: points[k]
  }

  ghost predicate IsWhole(points: map<Key, Record>, p: Progress) {
    forall j: nat :: j < Size(p) ==>
      && KeyOf(p.ing, j) in Recall(points)
      && points[KeyOf(p.ing, j)] == Chunk(p.ing.source, p.ing.run, p.ing.workspace, j, p.ing.chunks[j], true)
  }

  lemma AliveIsWhole(points: map<Key, Record>, log: seq<Progress>, i: nat, j: nat)
    requires HoldsAlive(points, log) && Alive(log, i, j) && IsCommitted(log[i])
    ensures IsWhole(points, log[i])
  {
    hide Overtaken, KeyOf;
    forall j': nat | j' < Size(log[i]) ensures Alive(log, i, j') {
    }
  }

  // Whatever chunk of these ingests recall finds belongs to a generation that
  // recall finds whole.
  lemma RecallIsWholeGenerations(w: World, base: map<Key, Record>, k: Key) returns (i: nat, j: nat)
    requires LogOk(w.log, base) && Matches(w.st.points, w.log, base)
    requires k in Recall(w.st.points) && !(k in base && !BaseSwept(w.log, base[k]))
    ensures i < |w.log| && j < Size(w.log[i]) && k == KeyOf(w.log[i].ing, j)
    ensures IsCommitted(w.log[i]) && IsWhole(w.st.points, w.log[i])
  {
    hide LogOk, HoldsBase, IsWhole, KeyOf, Overtaken, BaseSwept;
    assert Accounted(w.log, base, k);
    i, j :| Alive(w.log, i, j) && k == KeyOf(w.log[i].ing, j);
    assert w.st.points[k] == Expected(w.log[i], j);
    AliveIsWhole(w.st.points, w.log, i, j);
  }

  // The latest committed generation of a source is always among them.
  lemma LatestCommittedIsWhole(w: World, base: map<Key, Record>, i: nat)
    requires LogOk(w.log, base) && Matches(w.st.points, w.log, base)
    requires i < |w.log| && IsCommitted(w.log[i])
    requires forall i' :: i < i' < |w.log| && w.log[i'].ing.source == w.log[i].ing.source ==> !IsCommitted(w.log[i'])
    ensures IsWhole(w.st.points, w.log[i])
  {
    assert !Overtaken(w.log, i);
    hide Overtaken, BaseSwept, KeyOf;
    forall j: nat | j < Size(w.log[i]) ensures Alive(w.log, i, j) {
    }
  }

  // Once a run has swept and no other of its source has begun, the source
  // consists of that run's chunks and nothing else.
  lemma SweptLeavesOnlyItself(w: World, base: map<Key, Record>, i: nat, k: Key)
    requires LogOk(w.log, base) && Matches(w.st.points, w.log, base)
    requires LastOfSource(w.log, i) && HasSwept(w.log[i])
    ensures IsWhole(w.st.points, w.log[i])
    ensures (k in w.st.points && w.st.points[k].Chunk? && w.st.points[k].source == w.log[i].ing.source)
            <==> exists j: nat :: j < Size(w.log[i]) && k == KeyOf(w.log[i].ing, j)
  {
    LatestCommittedIsWhole(w, base, i);
    hide KeyOf;
    if k in w.st.points && w.st.points[k].Chunk? && w.st.points[k].source == w.log[i].ing.source {
      assert Accounted(w.log, base, k);
      var o: nat, j: nat :| Alive(w.log, o, j) && k == KeyOf(w.log[o].ing, j);
      assert w.st.points[k] == Expected(w.log[o], j);
      assert o < i ==> Overtaken(w.log, o);
    }
  }

  lemma NextKeyIsNew(w: World, base: map<Key, Record>, i: nat)
    requires CanAdvance(w, base, i)
    ensures KeyOf(w.log[i].ing, w.log[i].done) !in w.st.points
  {
    hide Overtaken, BaseSwept, KeyOf;
    var key := KeyOf(w.log[i].ing, w.log[i].done);
    if key in w.st.points {
      assert Accounted(w.log, base, key);
      var o: nat, j: nat :| Alive(w.log, o, j) && key == KeyOf(w.log[o].ing, j);
      KeysDiffer(w.log, base, i, w.log[i].done, o, j);
    }
  }

  // Before its commit an ingest changes nothing recall can see.
  lemma StagingIsInvisible(w: World, base: map<Key, Record>, i: nat)
    requires CanAdvance(w, base, i) && w.log[i].done < Size(w.log[i])
    ensures Recall(Next(w, Advance(i)).st.points) == Recall(w.st.points)
  {
    NextKeyIsNew(w, base, i);
    GatedIsInvisible(w.st.points, KeyOf(w.log[i].ing, w.log[i].done), ChunkAt(w.log[i].ing, w.log[i].done, false));
  }

  lemma GatedIsInvisible(points: map<Key, Record>, key: Key, r: Record)
    requires key !in points && !Recallable(r)
    ensures Recall(points[key := r]) == Recall(points)
  {
  }

  // The commit brings in its whole generation and nothing else, in one step.
  lemma CommitIsOneStep(w: World, base: map<Key, Record>, i: nat, k: Key)
    requires CanAdvance(w, base, i) && w.log[i].done == Size(w.log[i])
    ensures var after := Next(w, Advance(i)).st.points;
            && (k in Recall(w.st.points) ==> k in Recall(after) && after[k] == w.st.points[k])
            && (k in Recall(after) && k !in Recall(w.st.points) ==>
              exists j: nat :: j < Size(w.log[i]) && k == KeyOf(w.log[i].ing, j))
            && IsWhole(after, w.log[i])
  {
    var after := Next(w, Advance(i));
    CommitMatches(w, base, i);
    LogStaysOk(w.log, base, i);
    NotOvertaken(after.log, i);
    assert IsWhole(after.st.points, after.log[i]) by {
      LatestCommittedIsWhole(after, base, i);
    }
    if k in Recall(after.st.points) && k !in Recall(w.st.points) {
      OnlyOwnFlip(w, base, i, k);
    }
  }

  lemma OnlyOwnFlip(w: World, base: map<Key, Record>, i: nat, k: Key)
    requires CanAdvance(w, base, i) && k in w.st.points && OfRun(w.st.points[k], w.log[i].ing)
    ensures exists j: nat :: j < Size(w.log[i]) && k == KeyOf(w.log[i].ing, j)
  {
    hide Overtaken, BaseSwept, KeyOf;
    assert Accounted(w.log, base, k);
    var o: nat, j: nat :| Alive(w.log, o, j) && k == KeyOf(w.log[o].ing, j);
    assert w.st.points[k] == Expected(w.log[o], j);
    assert o == i;
  }

  // ---- whole runs, from any collection ----

  ghost predicate FreshRuns(w: World, steps: seq<Step>) {
    Opening(w) && forall s :: s in steps ==> FreshToBase(w.st.points, s)
  }

  // At every moment of every run, whatever recall finds of a run's chunks is part
  // of a committed generation that recall finds whole.
  lemma RunsRecallWholeGenerations(w: World, steps: seq<Step>, k: Key) returns (i: nat, j: nat)
    requires FreshRuns(w, steps) && k in Recall(Run(w, steps).st.points)
    requires k !in w.st.points || BaseSwept(Run(w, steps).log, w.st.points[k])
    ensures var at := Run(w, steps);
            && i < |at.log| && j < Size(at.log[i]) && k == KeyOf(at.log[i].ing, j)
            && IsCommitted(at.log[i]) && IsWhole(at.st.points, at.log[i])
  {
    CollectionFollowsTheLog(w, steps);
    hide Run, Matches, LogOk, IsWhole, BaseSwept;
    i, j := RecallIsWholeGenerations(Run(w, steps), w.st.points, k);
  }

  // And the latest committed generation of each source is found whole.
  lemma RunsRecallTheLatest(w: World, steps: seq<Step>, i: nat)
    requires FreshRuns(w, steps) && i < |Run(w, steps).log| && IsCommitted(Run(w, steps).log[i])
    requires var log := Run(w, steps).log;
             forall i' :: i < i' < |log| && log[i'].ing.source == log[i].ing.source ==> !IsCommitted(log[i'])
    ensures IsWhole(Run(w, steps).st.points, Run(w, steps).log[i])
  {
    CollectionFollowsTheLog(w, steps);
    hide Run, Matches, LogOk, IsWhole;
    LatestCommittedIsWhole(Run(w, steps), w.st.points, i);
  }

  // Once the last ingest of a source has swept, the source is its chunks alone.
  lemma RunsEndInOneGeneration(w: World, steps: seq<Step>, i: nat, k: Key)
    requires FreshRuns(w, steps) && LastOfSource(Run(w, steps).log, i) && HasSwept(Run(w, steps).log[i])
    ensures var at := Run(w, steps);
            && IsWhole(at.st.points, at.log[i])
            && (k in OfSource(at.st.points, at.log[i].ing.source)
                <==> exists j: nat :: j < Size(at.log[i]) && k == KeyOf(at.log[i].ing, j))
  {
    CollectionFollowsTheLog(w, steps);
    hide Run, Matches, LogOk, IsWhole, KeyOf;
    SweptLeavesOnlyItself(Run(w, steps), w.st.points, i, k);
  }

  function OfSource(points: map<Key, Record>, source: string): map<Key, Record> {
    map k | k in points && points[k].Chunk? && points[k].source == source :: points[k]
  }

  function Memories(points: map<Key, Record>): map<Key, Record> {
    map k | k in points && points[k].Memory? :: points[k]
  }

  // No command of an ingest touches another source, or a memory.
  lemma OthersUntouched(w: World, base: map<Key, Record>, i: nat, source: string)
    requires CanAdvance(w, base, i) && source != w.log[i].ing.source
    ensures var after := Next(w, Advance(i)).st;
            && OfSource(after.points, source) == OfSource(w.st.points, source)
            && Memories(after.points) == Memories(w.st.points)
            && (source in after.tracked <==> source in w.st.tracked)
            && (source in after.tracked ==> after.tracked[source] == w.st.tracked[source])
            && (source in after.listed <==> source in w.st.listed)
  {
    NextKeyIsNew(w, base, i);
    CommandIsLocal(w.st, w.log[i].ing, w.log[i].done, source);
  }

  lemma CommandIsLocal(st: State, ing: Ingest, i: nat, source: string)
    requires i < Total(ing) && KeyOf(ing, i) !in st.points && source != ing.source
    ensures var after := Command(st, ing, i);
            && OfSource(after.points, source) == OfSource(st.points, source)
            && Memories(after.points) == Memories(st.points)
            && (source in after.tracked <==> source in st.tracked)
            && (source in after.tracked ==> after.tracked[source] == st.tracked[source])
            && (source in after.listed <==> source in st.listed)
  {
    hide KeyOf;
  }

  // ---- the source records ----

  ghost predicate LastTracked(log: seq<Progress>, i: nat) {
    && i < |log| && HasTracked(log[i])
    && forall i' :: i < i' < |log| && log[i'].ing.source == log[i].ing.source ==> !HasTracked(log[i'])
  }

  // A source's record counts the chunks of the last of its ingests that got as
  // far as writing it.
  ghost predicate Tracked(w: World) {
    forall i: nat :: LastTracked(w.log, i) ==>
      w.log[i].ing.source in w.st.tracked && w.st.tracked[w.log[i].ing.source] == Size(w.log[i])
  }

  lemma {:induction false} RecordsFollowTheLog(w: World, steps: seq<Step>)
    requires Opening(w)
    ensures Tracked(Run(w, steps))
    decreases |steps|
  {
    if steps != [] {
      RecordsFollowTheLog(w, steps[..|steps| - 1]);
      var at, step := Run(w, steps[..|steps| - 1]), steps[|steps| - 1];
      hide Tracked;
      if Enabled(at, step) {
        if step.Begin? {
          BeginTracks(at, step.ing);
        } else {
          AdvanceTracks(at, step.i);
        }
      }
    }
  }

  lemma BeginTracks(w: World, ing: Ingest)
    requires Tracked(w) && ing.chunks != []
    ensures Tracked(World(w.st, w.log + [Progress(ing, 0)]))
  {
    var log := w.log + [Progress(ing, 0)];
    forall i: nat | LastTracked(log, i) ensures LastTracked(w.log, i) && log[i] == w.log[i] {
      forall i' | i < i' < |w.log| && w.log[i'].ing.source == w.log[i].ing.source ensures !HasTracked(w.log[i']) {
        assert log[i'] == w.log[i'];
      }
    }
  }

  lemma AdvanceTracks(w: World, i: nat)
    requires Tracked(w) && Enabled(w, Advance(i))
    ensures Tracked(Next(w, Advance(i)))
  {
    var after := Next(w, Advance(i));
    forall o: nat | LastTracked(after.log, o)
      ensures after.log[o].ing.source in after.st.tracked
      ensures after.st.tracked[after.log[o].ing.source] == Size(after.log[o])
    {
      if o != i || HasTracked(w.log[i]) {
        forall i' | o < i' < |w.log| && w.log[i'].ing.source == w.log[o].ing.source ensures !HasTracked(w.log[i']) {
          assert !HasTracked(after.log[i']);
        }
        assert LastTracked(w.log, o);
      }
      if o != i && after.log[o].ing.source == w.log[i].ing.source {
        assert o < i && !HasTracked(after.log[i]);
      }
    }
  }
}
