/** No session waits for a distillation that nothing in the queue will perform. */
module QueueSafety {
  import opened Wrappers
  import opened Principal
  import opened SessionStore
  import opened Eviction
  import opened Protocol
  import opened Completion

  // ---- well-formed queues and the processes that hold copies of entries ----

  function JobsOf(w: Worker): seq<Job> {
    match w
    case Head(batch) => batch
    case Loaded(job, rest) => [job] + rest
    case Parked(job, rest) => [job] + rest
    case Marked(job, rest) => [job] + rest
    case Settled(job, rest) => [job] + rest
  }

  predicate EntryOk(e: Entry) { e.sid != "" && e.attempts < MAX_ATTEMPTS }

  predicate JobOk(queue: map<nat, Entry>, nextId: nat, job: Job) {
    EntryOk(job.entry) && job.id < nextId && (job.id in queue ==> queue[job.id] == job.entry)
  }

  predicate WorkerOk(queue: map<nat, Entry>, nextId: nat, w: Worker) {
    && (forall job | job in JobsOf(w) :: JobOk(queue, nextId, job))
    && (w.Loaded? || w.Parked? || w.Marked? ==> w.job.entry.sid != "")
  }

  predicate RequeuerOk(queue: map<nat, Entry>, nextId: nat, r: Requeuer) {
    match r
    case Popped(_) => true
    case Found(letter) => letter.sid != ""
    case Enqueued(sid, id) => sid != "" && id < nextId && (id in queue ==> queue[id].sid == sid)
  }

  predicate QueueOk(sys: Sys) {
    && (forall id :: id in sys.queue ==> id < sys.nextId && EntryOk(sys.queue[id]))
    && (forall w :: w in sys.workers ==> WorkerOk(sys.queue, sys.nextId, sys.workers[w]))
    && (forall r :: r in sys.requeuers ==> RequeuerOk(sys.queue, sys.nextId, sys.requeuers[r]))
  }

  lemma CompleterKeepsQueueOk(cfg: Config, sys: Sys, c: nat, step: CompleteStep)
    requires QueueOk(sys) && CompletersFaithful(cfg, sys)
    ensures QueueOk(CompleterAct(cfg, sys, c, step))
  {
  }

  lemma MovedWorkerOk(queue: map<nat, Entry>, nextId: nat, st: Store, proc: Worker, step: WorkStep)
    requires WorkerOk(queue, nextId, proc)
    ensures WorkerOk(queue, nextId, WorkMove(st, proc, step).proc)
    ensures WorkMove(st, proc, step).added.Some? ==> EntryOk(WorkMove(st, proc, step).added.value)
  {
    assert !proc.Head? ==> proc.job in JobsOf(proc);
    forall job | job in JobsOf(WorkMove(st, proc, step).proc) ensures job in JobsOf(proc) {
    }
  }

  lemma WorkerKeepsQueueOk(sys: Sys, w: nat, step: WorkStep)
    requires QueueOk(sys)
    ensures QueueOk(WorkerAct(sys, w, step))
  {
    if w in sys.workers {
      MovedWorkerOk(sys.queue, sys.nextId, sys.store, sys.workers[w], step);
    }
    hide WorkMove;
  }

  lemma RequeueKeepsQueueOk(sys: Sys, r: nat, step: RequeueStep)
    requires QueueOk(sys)
    ensures QueueOk(RequeueAct(sys, r, step))
  {
  }

  lemma GuardKeepsQueue(cfg: Config, sys: Sys, g: nat, step: GuardStep)
    ensures var after := GuardAct(cfg, sys, g, step);
            && after.queue == sys.queue && after.nextId == sys.nextId
            && after.workers == sys.workers && after.requeuers == sys.requeuers && after.dlq == sys.dlq
  {
    hide StartCommit, ResumeCommit, FreshId, ResumeRefusal, Owns;
  }

  lemma NextKeepsQueueOk(cfg: Config, sys: Sys, a: Action)
    requires QueueOk(sys) && CompletersFaithful(cfg, sys)
    ensures QueueOk(Next(cfg, sys, a))
  {
    match a
    case Manage(_) =>
    case Complete(c, step) => CompleterKeepsQueueOk(cfg, sys, c, step);
    case Guarded(g, step) => GuardKeepsQueue(cfg, sys, g, step);
    case Work(w, step) => WorkerKeepsQueueOk(sys, w, step);
    case Requeue(r, step) => RequeueKeepsQueueOk(sys, r, step);
    hide ManageStore, CompleterAct, GuardAct, WorkerAct, RequeueAct;
  }

  lemma {:induction false} QueueStaysOk(cfg: Config, run: seq<Action>)
    ensures QueueOk(Run(cfg, INIT, run))
  {
    if run != [] {
      QueueStaysOk(cfg, run[..|run| - 1]);
      RunKeepsFaithful(cfg, INIT, run[..|run| - 1]);
      NextKeepsQueueOk(cfg, Run(cfg, INIT, run[..|run| - 1]), run[|run| - 1]);
    }
  }

  // ---- a queued session has a live entry ----

  // Some worker is past this entry's terminal write or re-enqueue.
  ghost predicate Doomed(workers: map<nat, Worker>, id: nat) {
    exists w :: w in workers && (workers[w].Marked? || workers[w].Settled?) && workers[w].job.id == id
  }

  ghost predicate LiveEntry(sys: Sys, s: Sid, id: nat) {
    id in sys.queue && sys.queue[id].sid == s && !Doomed(sys.workers, id)
  }

  ghost predicate Awaits(st: Store, s: Sid) { s in st.meta && st.meta[s].distillation == Queued }

  ghost predicate NoneStranded(sys: Sys) {
    forall s :: Awaits(sys.store, s) ==> exists id :: LiveEntry(sys, s, id)
  }

  ghost predicate NoNewWait(before: Store, after: Store) {
    forall s :: Awaits(after, s) ==> Awaits(before, s)
  }

  lemma StartAddsNoWait(cfg: Config, st: Store, agent: Label, sid: Sid, owner: Owner, ts: int)
    ensures NoNewWait(st, StartCommit(cfg, st, agent, sid, owner, ts))
  {
    var started := Begun(st, agent, sid, owner, ts);
    EvictAllThins(cfg, started, Candidates(cfg, started));
  }

  lemma ManageAddsNoWait(cfg: Config, st: Store, op: Op)
    ensures NoNewWait(st, ManageStore(cfg, st, op))
  {
    match op
    case Start(agent, sid, owner, ts) =>
      if FreshId(st, sid) { StartAddsNoWait(cfg, st, Named(cfg, agent), sid, owner, ts); }
    case Sweep => EvictAllThins(cfg, st, Candidates(cfg, st));
    case _ => hide StartCommit, Evict;
  }

  lemma GuardAddsNoWait(cfg: Config, sys: Sys, g: nat, step: GuardStep)
    ensures NoNewWait(sys.store, GuardAct(cfg, sys, g, step).store)
  {
    GuardStoreCases(cfg, sys, g, step);
    if g in sys.guards && step.Script? && sys.guards[g].req.StartReq? && FreshId(sys.store, sys.guards[g].req.sid) {
      var req := sys.guards[g].req;
      StartAddsNoWait(cfg, sys.store, req.agent, req.sid, req.owner, step.ts);
    }
    hide StartCommit, GuardAct;
  }

  // Live entries survive any step that keeps the queue and the workers.
  lemma QuietKeepsNoneStranded(sys: Sys, after: Sys)
    requires NoneStranded(sys) && NoNewWait(sys.store, after.store)
    requires after.queue == sys.queue && after.workers == sys.workers
    ensures NoneStranded(after)
  {
    forall s | Awaits(after.store, s) ensures exists id :: LiveEntry(after, s, id) {
      var id :| LiveEntry(sys, s, id);
      assert LiveEntry(after, s, id);
    }
  }

  lemma CompleterKeepsNoneStranded(cfg: Config, sys: Sys, c: nat, step: CompleteStep)
    requires NoneStranded(sys) && QueueOk(sys) && CompletersFaithful(cfg, sys)
    ensures NoneStranded(CompleterAct(cfg, sys, c, step))
  {
    var after := CompleterAct(cfg, sys, c, step);
    forall s | Awaits(after.store, s) ensures exists id :: LiveEntry(after, s, id) {
      if Awaits(sys.store, s) {
        var id :| LiveEntry(sys, s, id);
        assert LiveEntry(after, s, id);
      } else {
        FreshIsNotDoomed(sys);
        assert LiveEntry(after, s, sys.nextId);
      }
    }
  }

  lemma FreshIsNotDoomed(sys: Sys)
    requires QueueOk(sys)
    ensures !Doomed(sys.workers, sys.nextId)
  {
    forall w | w in sys.workers && !sys.workers[w].Head? ensures sys.workers[w].job.id < sys.nextId {
      assert sys.workers[w].job in JobsOf(sys.workers[w]);
    }
  }

  // A worker's own step: the session its job names is still served.
  lemma WorkerKeepsNoneStranded(sys: Sys, w: nat, step: WorkStep)
    requires NoneStranded(sys) && QueueOk(sys)
    ensures NoneStranded(WorkerAct(sys, w, step))
  {
    var after := WorkerAct(sys, w, step);
    forall s | Awaits(after.store, s) ensures exists id :: LiveEntry(after, s, id) {
      assert Awaits(sys.store, s);
      var id :| LiveEntry(sys, s, id);
      FreshIsNotDoomed(sys);
      if !LiveEntry(after, s, id) {
        LosingAnEntry(sys, w, step, s, id);
        assert LiveEntry(after, s, sys.nextId);
      }
    }
  }

  // The only live entry a worker's step kills while its session still waits is
  // one it has just re-enqueued.
  lemma LosingAnEntry(sys: Sys, w: nat, step: WorkStep, s: Sid, id: nat)
    requires QueueOk(sys) && LiveEntry(sys, s, id)
    requires var after := WorkerAct(sys, w, step);
             Awaits(after.store, s) && !LiveEntry(after, s, id)
    ensures LiveEntry(WorkerAct(sys, w, step), s, sys.nextId)
  {
    var after := WorkerAct(sys, w, step);
    FreshIsNotDoomed(sys);
    assert w in sys.workers;
    CurrentJobOk(sys, w);
  }

  lemma CurrentJobOk(sys: Sys, w: nat)
    requires QueueOk(sys) && w in sys.workers
    ensures var proc := sys.workers[w];
            if !proc.Head? then JobOk(sys.queue, sys.nextId, proc.job)
            else proc.batch != [] ==> JobOk(sys.queue, sys.nextId, proc.batch[0])
  {
    var proc := sys.workers[w];
    if !proc.Head? {
      assert proc.job in JobsOf(proc);
    } else if proc.batch != [] {
      assert proc.batch[0] in JobsOf(proc);
    }
  }

  lemma RequeueKeepsNoneStranded(sys: Sys, r: nat, step: RequeueStep)
    requires NoneStranded(sys) && QueueOk(sys)
    requires step.SetStatus? && r in sys.requeuers && sys.requeuers[r].Enqueued? ==>
               exists id :: LiveEntry(sys, sys.requeuers[r].sid, id)
    ensures NoneStranded(RequeueAct(sys, r, step))
  {
    var after := RequeueAct(sys, r, step);
    forall s | Awaits(after.store, s) ensures exists id :: LiveEntry(after, s, id) {
      assert Awaits(sys.store, s) || (step.SetStatus? && s == sys.requeuers[r].sid);
      var id :| LiveEntry(sys, s, id);
      assert LiveEntry(after, s, id);
    }
  }

  // requeue_dlq writes "queued" after its XADD; somebody must still be going to
  // distil the session then, by whatever entry.
  ghost predicate Served(sys: Sys, a: Action) {
    a.Requeue? && a.requeue.SetStatus? && a.r in sys.requeuers && sys.requeuers[a.r].Enqueued? ==>
      exists id :: LiveEntry(sys, sys.requeuers[a.r].sid, id)
  }

  ghost predicate ServedRun(cfg: Config, run: seq<Action>) {
    run != [] ==>
      var before := run[..|run| - 1];
      ServedRun(cfg, before) && Served(Run(cfg, INIT, before), run[|run| - 1])
  }

  lemma ActKeepsNoneStranded(cfg: Config, sys: Sys, a: Action)
    requires NoneStranded(sys) && QueueOk(sys) && CompletersFaithful(cfg, sys) && Served(sys, a)
    ensures NoneStranded(Act(cfg, sys, a))
  {
    var act := Act(cfg, sys, a);
    match a
    case Manage(op) => ManageAddsNoWait(cfg, sys.store, op); QuietKeepsNoneStranded(sys, act);
    case Complete(c, step) => CompleterKeepsNoneStranded(cfg, sys, c, step);
    case Guarded(g, step) =>
      GuardAddsNoWait(cfg, sys, g, step);
      GuardKeepsQueue(cfg, sys, g, step);
      QuietKeepsNoneStranded(sys, act);
    case Work(w, step) => WorkerKeepsNoneStranded(sys, w, step);
    case Requeue(r, step) => RequeueKeepsNoneStranded(sys, r, step);
    hide ManageStore, CompleterAct, GuardAct, WorkerAct, RequeueAct, NoneStranded;
  }

  // Exactly when a requeue's status write is safe.
  lemma StatusWriteIsSafeIff(cfg: Config, sys: Sys, r: nat)
    requires NoneStranded(sys) && QueueOk(sys)
    requires r in sys.requeuers && sys.requeuers[r].Enqueued?
    ensures NoneStranded(Next(cfg, sys, Requeue(r, SetStatus)))
            <==> exists id :: LiveEntry(sys, sys.requeuers[r].sid, id)
  {
    var after := Next(cfg, sys, Requeue(r, SetStatus));
    var sid := sys.requeuers[r].sid;
    assert after.queue == sys.queue && after.workers == sys.workers;
    assert after.store == SetDistillation(sys.store, sid, Queued);
    if NoneStranded(after) {
      assert Awaits(after.store, sid);
      var id :| LiveEntry(after, sid, id);
      assert LiveEntry(sys, sid, id);
    }
    if exists id :: LiveEntry(sys, sid, id) {
      RequeueKeepsNoneStranded(sys, r, SetStatus);
      QuietKeepsNoneStranded(RequeueAct(sys, r, SetStatus), after);
    }
  }

  // Of all steps anyone can take, such a status write alone strands a session.
  lemma NoneStrandedStaysIff(cfg: Config, sys: Sys, a: Action)
    requires NoneStranded(sys) && QueueOk(sys) && CompletersFaithful(cfg, sys)
    ensures NoneStranded(Next(cfg, sys, a)) <==> Served(sys, a)
  {
    hide Next, Act, NoneStranded, QueueOk, CompletersFaithful;
    if Served(sys, a) {
      ActKeepsNoneStranded(cfg, sys, a);
      ObservedStaysServed(cfg, sys, a);
    } else {
      StatusWriteIsSafeIff(cfg, sys, a.r);
    }
  }

  lemma ObservedStaysServed(cfg: Config, sys: Sys, a: Action)
    requires NoneStranded(Act(cfg, sys, a))
    ensures NoneStranded(Next(cfg, sys, a))
  {
    hide Act;
    QuietKeepsNoneStranded(Act(cfg, sys, a), Next(cfg, sys, a));
  }

  // Over whole runs, with crashes anywhere: a session marked queued always has an
  // entry that is not yet past its terminal write exactly if every requeue's
  // status write finds one.
  lemma {:induction false} NoneStrandedIff(cfg: Config, run: seq<Action>)
    ensures (forall k :: 0 <= k <= |run| ==> NoneStranded(Run(cfg, INIT, run[..k]))) <==> ServedRun(cfg, run)
  {
    hide NoneStranded, Served, Next, QueueOk, CompletersFaithful;
    assert run[..|run|] == run;
    if run == [] {
      NothingWaits();
    } else {
      var n := |run| - 1;
      NoneStrandedIff(cfg, run[..n]);
      assert forall k :: 0 <= k <= n ==> run[..n][..k] == run[..k];
      QueueStaysOk(cfg, run[..n]);
      RunKeepsFaithful(cfg, INIT, run[..n]);
      var at := Run(cfg, INIT, run[..n]);
      assert Run(cfg, INIT, run) == Next(cfg, at, run[n]);
      if NoneStranded(at) {
        NoneStrandedStaysIff(cfg, at, run[n]);
      }
    }
  }

  lemma NothingWaits()
    ensures NoneStranded(INIT)
  {
  }

  lemma NoSessionStranded(cfg: Config, run: seq<Action>)
    requires ServedRun(cfg, run)
    ensures NoneStranded(Run(cfg, INIT, run))
  {
    hide Run, NoneStranded, ServedRun;
    NoneStrandedIff(cfg, run);
    assert run[..|run|] == run;
  }

  // ---- schedules under which every status write is safe ----

  function JobAt(w: Worker): Option<Job> {
    match w
    case Head(batch) => if batch == [] then None else Some(batch[0])
    case _ => Some(w.job)
  }

  // A worker has a command on an entry whose requeue has its status to write yet.
  ghost predicate Meddles(sys: Sys, a: Action) {
    && a.Work? && !a.work.Fetch? && !a.work.Crash? && a.w in sys.workers && JobAt(sys.workers[a.w]).Some?
    && exists r :: r in sys.requeuers && sys.requeuers[r].Enqueued?
                && sys.requeuers[r].id == JobAt(sys.workers[a.w]).value.id
  }

  ghost predicate LeftAloneRun(cfg: Config, run: seq<Action>) {
    run != [] ==>
      var before := run[..|run| - 1];
      LeftAloneRun(cfg, before) && !Meddles(Run(cfg, INIT, before), run[|run| - 1])
  }

  // Every requeue between its two writes has the entry it added.
  ghost predicate EnqueuedLive(sys: Sys) {
    forall r :: r in sys.requeuers && sys.requeuers[r].Enqueued? ==>
      LiveEntry(sys, sys.requeuers[r].sid, sys.requeuers[r].id)
  }

  lemma WorkerKeepsEnqueuedLive(sys: Sys, w: nat, step: WorkStep)
    requires EnqueuedLive(sys) && QueueOk(sys) && !Meddles(sys, Work(w, step))
    ensures EnqueuedLive(WorkerAct(sys, w, step))
  {
    var after := WorkerAct(sys, w, step);
    forall r | r in after.requeuers && after.requeuers[r].Enqueued?
      ensures LiveEntry(after, after.requeuers[r].sid, after.requeuers[r].id)
    {
      var id := sys.requeuers[r].id;
      assert LiveEntry(sys, sys.requeuers[r].sid, id) && id < sys.nextId;
      if w in sys.workers && !step.Fetch? && !step.Crash? {
        assert JobAt(sys.workers[w]).Some? ==> JobAt(sys.workers[w]).value.id != id;
      }
    }
  }

  lemma RequeueKeepsEnqueuedLive(sys: Sys, r: nat, step: RequeueStep)
    requires EnqueuedLive(sys) && QueueOk(sys)
    ensures EnqueuedLive(RequeueAct(sys, r, step))
  {
    FreshIsNotDoomed(sys);
    var after := RequeueAct(sys, r, step);
    forall r' | r' in after.requeuers && after.requeuers[r'].Enqueued?
      ensures LiveEntry(after, after.requeuers[r'].sid, after.requeuers[r'].id)
    {
      if r' in sys.requeuers && sys.requeuers[r'].Enqueued? {
        assert LiveEntry(sys, sys.requeuers[r'].sid, sys.requeuers[r'].id) && sys.requeuers[r'].id < sys.nextId;
      }
    }
  }

  lemma CompleterKeepsEnqueuedLive(cfg: Config, sys: Sys, c: nat, step: CompleteStep)
    requires EnqueuedLive(sys) && QueueOk(sys)
    ensures EnqueuedLive(CompleterAct(cfg, sys, c, step))
  {
    hide CompleteMove;
    var after := CompleterAct(cfg, sys, c, step);
    forall r | r in after.requeuers && after.requeuers[r].Enqueued?
      ensures LiveEntry(after, after.requeuers[r].sid, after.requeuers[r].id)
    {
      assert LiveEntry(sys, sys.requeuers[r].sid, sys.requeuers[r].id) && sys.requeuers[r].id < sys.nextId;
    }
  }

  lemma SameQueueKeepsEnqueuedLive(sys: Sys, after: Sys)
    requires EnqueuedLive(sys)
    requires after.queue == sys.queue && after.workers == sys.workers && after.requeuers == sys.requeuers
    ensures EnqueuedLive(after)
  {
    forall r | r in after.requeuers && after.requeuers[r].Enqueued?
      ensures LiveEntry(after, after.requeuers[r].sid, after.requeuers[r].id)
    {
      assert LiveEntry(sys, sys.requeuers[r].sid, sys.requeuers[r].id);
    }
  }

  lemma NextKeepsEnqueuedLive(cfg: Config, sys: Sys, a: Action)
    requires EnqueuedLive(sys) && QueueOk(sys) && !Meddles(sys, a)
    ensures EnqueuedLive(Next(cfg, sys, a))
  {
    hide ManageStore, CompleterAct, GuardAct, WorkerAct, RequeueAct, EnqueuedLive, QueueOk, Meddles;
    var act := Act(cfg, sys, a);
    match a {
      case Manage(op) => SameQueueKeepsEnqueuedLive(sys, act);
      case Complete(c, step) => CompleterKeepsEnqueuedLive(cfg, sys, c, step);
      case Guarded(g, step) =>
        GuardKeepsQueue(cfg, sys, g, step);
        SameQueueKeepsEnqueuedLive(sys, act);
      case Work(w, step) => WorkerKeepsEnqueuedLive(sys, w, step);
      case Requeue(r, step) => RequeueKeepsEnqueuedLive(sys, r, step);
    }
    SameQueueKeepsEnqueuedLive(act, Next(cfg, sys, a));
  }

  lemma {:induction false} LeftAloneStaysLive(cfg: Config, run: seq<Action>)
    requires LeftAloneRun(cfg, run)
    ensures EnqueuedLive(Run(cfg, INIT, run))
  {
    hide Next, Meddles, EnqueuedLive, QueueOk;
    if run == [] {
      NothingEnqueued();
    } else {
      LeftAloneStaysLive(cfg, run[..|run| - 1]);
      QueueStaysOk(cfg, run[..|run| - 1]);
      NextKeepsEnqueuedLive(cfg, Run(cfg, INIT, run[..|run| - 1]), run[|run| - 1]);
    }
  }

  lemma NothingEnqueued()
    ensures EnqueuedLive(INIT)
  {
  }

  // While workers leave an entry alone until its requeue has written the status,
  // every status write is safe, and so no session is ever stranded.
  lemma {:induction false} LeftAloneRunsAreServed(cfg: Config, run: seq<Action>)
    requires LeftAloneRun(cfg, run)
    ensures ServedRun(cfg, run) && NoneStranded(Run(cfg, INIT, run))
  {
    hide Next, Meddles, NoneStranded;
    if run != [] {
      var before := run[..|run| - 1];
      LeftAloneRunsAreServed(cfg, before);
      LeftAloneStaysLive(cfg, before);
      assert Served(Run(cfg, INIT, before), run[|run| - 1]);
    }
    NoSessionStranded(cfg, run);
  }

  // A status write that directly follows its XADD is safe.
  lemma ImmediateStatusIsServed(cfg: Config, run: seq<Action>, r: nat, now: int)
    requires ServedRun(cfg, run)
    requires r in Run(cfg, INIT, run).requeuers && Run(cfg, INIT, run).requeuers[r].Found?
    ensures ServedRun(cfg, run + [Requeue(r, Enqueue(now)), Requeue(r, SetStatus)])
  {
    QueueStaysOk(cfg, run);
    EnqueuedIsServed(cfg, Run(cfg, INIT, run), r, now);
    hide Next, Served, QueueOk;
    var enqueued := run + [Requeue(r, Enqueue(now))];
    var both := run + [Requeue(r, Enqueue(now)), Requeue(r, SetStatus)];
    assert enqueued[..|enqueued| - 1] == run;
    assert both[..|both| - 1] == enqueued;
  }

  lemma EnqueuedIsServed(cfg: Config, sys: Sys, r: nat, now: int)
    requires QueueOk(sys) && r in sys.requeuers && sys.requeuers[r].Found?
    ensures Served(Next(cfg, sys, Requeue(r, Enqueue(now))), Requeue(r, SetStatus))
    ensures Served(sys, Requeue(r, Enqueue(now)))
  {
    FreshIsNotDoomed(sys);
    var after := Next(cfg, sys, Requeue(r, Enqueue(now)));
    assert LiveEntry(after, sys.requeuers[r].letter.sid, sys.nextId);
  }
}
