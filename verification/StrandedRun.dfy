/** requeue_dlq's two writes are not one: a run that strands a session. */
module StrandedRun {
  import opened Wrappers
  import opened Principal
  import opened SessionStore
  import opened Protocol
  import opened QueueSafety

  const CFG := Config(100, "default", Deployment("workspace-local", "member-owner"))
  const ALICE := Owner("alice", "workspace-local")
  const REQ := CompleteRequest("s", "a", Claimed("alice"), "success", [], "done")

  ghost predicate Reachable(sys: Sys) { exists run :: sys == Run(CFG, INIT, run) }

  lemma Step(sys: Sys, a: Action) returns (after: Sys)
    requires Reachable(sys)
    ensures Reachable(after) && after == Next(CFG, sys, a) && sys.issued <= after.issued
  {
    IssuedGrows(sys, a);
    var run :| sys == Run(CFG, INIT, run);
    after := Next(CFG, sys, a);
    assert (run + [a])[..|run|] == run;
    assert after == Run(CFG, INIT, run + [a]);
  }

  lemma IssuedGrows(sys: Sys, a: Action)
    ensures sys.issued <= Next(CFG, sys, a).issued
  {
    hide ManageStore, CompleteMove, GuardMove, WorkMove, RequeueMove;
  }

  // What matters of a state: session "s", the queue, the dead letters, one worker, one requeuer.
  ghost predicate At(sys: Sys, d: Distillation, queue: map<nat, Entry>, nextId: nat, dlq: seq<Letter>,
                     worker: Option<Worker>, requeuer: Option<Requeuer>) {
    && "s" in sys.store.meta && sys.store.meta["s"].distillation == d
    && sys.queue == queue && sys.nextId == nextId && sys.dlq == dlq
    && sys.workers == (if worker.Some? then map[0 := worker.value] else map[])
    && sys.requeuers == (if requeuer.Some? then map[0 := requeuer.value] else map[])
  }

  lemma Started() returns (sys: Sys)
    ensures Reachable(sys) && sys == INIT.(store := sys.store, issued := {"s"})
    ensures sys.store.meta == map["s" := Fresh("a", ALICE)] && sys.store.pointer == map["a" := "s"]
    ensures sys.store.index == [Scored("s", 0)]
  {
    assert INIT == Run(CFG, INIT, []);
    sys := Step(INIT, Manage(Start("a", "s", ALICE, 0)));
    var started := StartCommit(CFG, INIT.store, "a", "s", ALICE, 0);
    assert ZAdd([], "s", 0) == [Scored("s", 0)];
    assert started.index == [Scored("s", 0)] && Candidates(CFG, started) == [];
  }

  function Alone(s: Sys, phase: CompletePhase): Sys {
    s.(completers := map[0 := Completer(REQ, 0, false, phase)])
  }

  // A completer's read, with nobody else at work.
  lemma Reads(s: Sys, phase: CompletePhase, step: CompleteStep, phase': CompletePhase)
    requires !step.Begin?
    requires CompleteMove(CFG, s.store, Completer(REQ, 0, false, phase), step)
          == CompleteEffect(Completer(REQ, 0, false, phase'), s.store, None)
    ensures Next(CFG, Alone(s, phase), Complete(0, step)) == Alone(s, phase')
  {
    hide CompleteMove;
    var after := Next(CFG, Alone(s, phase), Complete(0, step));
    assert after.completers == Alone(s, phase').completers;
  }

  lemma ReadsAll(s: Sys)
    requires s == INIT.(store := s.store, issued := {"s"})
    requires s.store.meta == map["s" := Fresh("a", ALICE)]
    ensures var m := Fresh("a", ALICE);
            var stale := StaleLabels(s.store.pointer, {"a", "a"}, "s");
            && Next(CFG, s, Complete(0, Begin(REQ))) == Alone(s, Ready)
            && Next(CFG, Alone(s, Ready), Complete(0, Watch)) == Alone(s, Watching)
            && Next(CFG, Alone(s, Watching), Complete(0, ReadMeta)) == Alone(s, Read(m))
            && Next(CFG, Alone(s, Read(m)), Complete(0, WatchPointers)) == Alone(s, PointersWatched(m))
            && Next(CFG, Alone(s, PointersWatched(m)), Complete(0, ReadPointers)) == Alone(s, PointersRead(m, stale))
  {
    var m := Fresh("a", ALICE);
    assert Next(CFG, s, Complete(0, Begin(REQ))).completers == Alone(s, Ready).completers;
    Reads(s, Ready, Watch, Watching);
    Reads(s, Watching, ReadMeta, Read(m));
    Reads(s, Read(m), WatchPointers, PointersWatched(m));
    Reads(s, PointersWatched(m), ReadPointers, PointersRead(m, StaleLabels(s.store.pointer, {"a", "a"}, "s")));
  }

  lemma Execs(s: Sys, stale: set<Label>)
    requires s == INIT.(store := s.store, issued := {"s"})
    requires s.store.meta == map["s" := Fresh("a", ALICE)]
    ensures At(Next(CFG, Alone(s, PointersRead(Fresh("a", ALICE), stale)), Complete(0, Exec(1))),
               Queued, map[0 := Entry("s", 0, 1)], 1, [], None, None)
    ensures var after := Next(CFG, Alone(s, PointersRead(Fresh("a", ALICE), stale)), Complete(0, Exec(1)));
            after.store.meta["s"].agent == "a"
  {
  }

  lemma CompletedOnce() returns (sys: Sys)
    ensures Reachable(sys) && At(sys, Queued, map[0 := Entry("s", 0, 1)], 1, [], None, None)
    ensures "s" in sys.store.meta && sys.store.meta["s"].agent == "a" && "s" in sys.issued
  {
    var s := Started();
    ReadsAll(s);
    Execs(s, StaleLabels(s.store.pointer, {"a", "a"}, "s"));
    hide *;
    sys := Step(s, Complete(0, Begin(REQ)));
    sys := Step(sys, Complete(0, Watch));
    sys := Step(sys, Complete(0, ReadMeta));
    sys := Step(sys, Complete(0, WatchPointers));
    sys := Step(sys, Complete(0, ReadPointers));
    sys := Step(sys, Complete(0, Exec(1)));
    SessionThere(sys, Queued, map[0 := Entry("s", 0, 1)], 1, [], None, None);
  }

  lemma SessionThere(sys: Sys, d: Distillation, queue: map<nat, Entry>, nextId: nat, dlq: seq<Letter>,
                     w: Option<Worker>, r: Option<Requeuer>)
    requires At(sys, d, queue, nextId, dlq, w, r)
    ensures "s" in sys.store.meta
  {
  }

  // ---- the steps of the two later passes, each on a state of that shape ----

  lemma Fetches(sys: Sys, id: nat, e: Entry, d: Distillation, nextId: nat, dlq: seq<Letter>,
                w: Option<Worker>, r: Option<Requeuer>)
    requires At(sys, d, map[id := e], nextId, dlq, w, r) && (w.Some? ==> w.value == Head([]))
    ensures At(Next(CFG, sys, Work(0, Fetch([id]))), d, map[id := e], nextId, dlq, Some(Head([Job(id, e)])), r)
  {
    hide Run, ManageStore, CompleterAct, GuardAct, RequeueAct, WorkMove;
    assert JobsFor(sys.queue, [id]) == [Job(id, e)];
  }

  lemma Works(sys: Sys, step: WorkStep, d: Distillation, job: Job, nextId: nat, dlq: seq<Letter>,
              w: Worker, r: Option<Requeuer>, d': Distillation, letters: seq<Letter>, w': Worker)
    requires At(sys, d, map[job.id := job.entry], nextId, dlq, Some(w), r) && job.entry.sid == "s"
    requires match step
      case Load => w == Head([job]) && w' == Loaded(job, []) && d' == d && letters == []
      case Outcome(distilled, _) => w == Loaded(job, []) &&
        if distilled == Learned then w' == Marked(job, []) && d' == Succeeded && letters == []
        else
          && distilled == Failed(true) && w' == Parked(job, []) && d' == d
          && letters == [Letter("s", job.entry.attempts + 1)]
      case MarkDead => w == Parked(job, []) && w' == Marked(job, []) && d' == DeadLettered && letters == []
      case ApplyTtl => w == Marked(job, []) && w' == Settled(job, []) && d' == d && letters == []
      case _ => false
    ensures At(Next(CFG, sys, Work(0, step)), d', map[job.id := job.entry], nextId, letters + dlq, Some(w'), r)
  {
    hide Run, ManageStore, CompleterAct, GuardAct, RequeueAct;
    assert [job][1..] == [];
  }

  lemma Drops(sys: Sys, d: Distillation, job: Job, nextId: nat, dlq: seq<Letter>, r: Option<Requeuer>)
    requires At(sys, d, map[job.id := job.entry], nextId, dlq, Some(Settled(job, [])), r)
    ensures At(Next(CFG, sys, Work(0, Drop)), d, map[], nextId, dlq, Some(Head([])), r)
  {
    hide Run, ManageStore, CompleterAct, GuardAct, RequeueAct;
  }

  lemma PopsLetter(sys: Sys)
    requires At(sys, DeadLettered, map[], 1, [Letter("s", 1)], Some(Head([])), None)
    ensures At(Next(CFG, sys, Requeue(0, Pop)), DeadLettered, map[], 1, [],
               Some(Head([])), Some(Popped(Letter("s", 1))))
  {
    hide Run, ManageStore, CompleterAct, GuardAct, WorkerAct;
  }

  lemma LooksUp(sys: Sys)
    requires At(sys, DeadLettered, map[], 1, [], Some(Head([])), Some(Popped(Letter("s", 1))))
    ensures At(Next(CFG, sys, Requeue(0, Look)), DeadLettered, map[], 1, [],
               Some(Head([])), Some(Found(Letter("s", 1))))
  {
    hide Run, ManageStore, CompleterAct, GuardAct, WorkerAct;
  }

  lemma Enqueues(sys: Sys)
    requires At(sys, DeadLettered, map[], 1, [], Some(Head([])), Some(Found(Letter("s", 1))))
    ensures At(Next(CFG, sys, Requeue(0, Enqueue(2))), DeadLettered, map[1 := Entry("s", 0, 2)], 2, [],
               Some(Head([])), Some(Enqueued("s", 1)))
  {
    hide Run, ManageStore, CompleterAct, GuardAct, WorkerAct;
  }

  lemma WritesStatus(sys: Sys)
    requires At(sys, Succeeded, map[], 2, [], Some(Head([])), Some(Enqueued("s", 1)))
    ensures !NoneStranded(Next(CFG, sys, Requeue(0, SetStatus)))
  {
    var after := Next(CFG, sys, Requeue(0, SetStatus));
    assert Awaits(after.store, "s");
    forall id ensures !LiveEntry(after, "s", id) {}
  }

  lemma GivesUp(start: Sys) returns (sys: Sys)
    requires Reachable(start) && At(start, Queued, map[0 := Entry("s", 0, 1)], 1, [], None, None)
    ensures Reachable(sys) && At(sys, DeadLettered, map[], 1, [Letter("s", 1)], Some(Head([])), None)
  {
    hide Next, Reachable, At;
    var e, job, dead := Entry("s", 0, 1), Job(0, Entry("s", 0, 1)), [Letter("s", 1)];
    var none: seq<Letter> := [];
    assert dead + none == dead && none + dead == dead && none + none == none;
    Fetches(start, 0, e, Queued, 1, [], None, None);
    sys := Step(start, Work(0, Fetch([0])));
    Works(sys, Load, Queued, job, 1, [], Head([job]), None, Queued, [], Loaded(job, []));
    sys := Step(sys, Work(0, Load));
    Works(sys, Outcome(Failed(true), 1), Queued, job, 1, [], Loaded(job, []), None, Queued, dead, Parked(job, []));
    sys := Step(sys, Work(0, Outcome(Failed(true), 1)));
    Works(sys, MarkDead, Queued, job, 1, dead, Parked(job, []), None, DeadLettered, [], Marked(job, []));
    sys := Step(sys, Work(0, MarkDead));
    Works(sys, ApplyTtl, DeadLettered, job, 1, dead, Marked(job, []), None, DeadLettered, [], Settled(job, []));
    sys := Step(sys, Work(0, ApplyTtl));
    Drops(sys, DeadLettered, job, 1, dead, None);
    sys := Step(sys, Work(0, Drop));
  }

  lemma Reenqueues(start: Sys) returns (sys: Sys)
    requires Reachable(start) && At(start, DeadLettered, map[], 1, [Letter("s", 1)], Some(Head([])), None)
    ensures Reachable(sys)
    ensures At(sys, DeadLettered, map[1 := Entry("s", 0, 2)], 2, [], Some(Head([])), Some(Enqueued("s", 1)))
  {
    hide Next, Reachable, At;
    PopsLetter(start);
    sys := Step(start, Requeue(0, Pop));
    LooksUp(sys);
    sys := Step(sys, Requeue(0, Look));
    Enqueues(sys);
    sys := Step(sys, Requeue(0, Enqueue(2)));
  }

  lemma Learns(start: Sys) returns (sys: Sys)
    requires Reachable(start)
    requires At(start, DeadLettered, map[1 := Entry("s", 0, 2)], 2, [], Some(Head([])), Some(Enqueued("s", 1)))
    ensures Reachable(sys) && At(sys, Succeeded, map[], 2, [], Some(Head([])), Some(Enqueued("s", 1)))
  {
    hide Next, Reachable, At;
    var e, job, r := Entry("s", 0, 2), Job(1, Entry("s", 0, 2)), Some(Enqueued("s", 1));
    var none: seq<Letter> := [];
    assert none + none == none;
    Fetches(start, 1, e, DeadLettered, 2, [], Some(Head([])), r);
    sys := Step(start, Work(0, Fetch([1])));
    Works(sys, Load, DeadLettered, job, 2, [], Head([job]), r, DeadLettered, [], Loaded(job, []));
    sys := Step(sys, Work(0, Load));
    Works(sys, Outcome(Learned, 2), DeadLettered, job, 2, [], Loaded(job, []), r, Succeeded, [], Marked(job, []));
    sys := Step(sys, Work(0, Outcome(Learned, 2)));
    Works(sys, ApplyTtl, Succeeded, job, 2, [], Marked(job, []), r, Succeeded, [], Settled(job, []));
    sys := Step(sys, Work(0, ApplyTtl));
    Drops(sys, Succeeded, job, 2, [], r);
    sys := Step(sys, Work(0, Drop));
  }

  // The worker takes up and finishes the re-enqueued job between the XADD and
  // the status write, which then marks a session "queued" that no entry names.
  lemma RequeueCanStrand()
    ensures exists run :: !NoneStranded(Run(CFG, INIT, run))
  {
    var sys := CompletedOnce();
    sys := GivesUp(sys);
    sys := Reenqueues(sys);
    sys := Learns(sys);
    WritesStatus(sys);
    hide Next, At;
    sys := Step(sys, Requeue(0, SetStatus));
  }
}
