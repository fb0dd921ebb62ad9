/** The session protocol as a transition system: every command of a completion
    and of a distillation pass is its own step, a guarded start or resume is
    split at its ownership reads, and everything else is one step. */
module Protocol {
  import opened Wrappers
  import opened Principal
  import opened SessionStore

  // ---- the distillation queue ----

  const MAX_ATTEMPTS := 10
  const BACKOFF_BASE := 5
  const BACKOFF_CAP := 3600

  datatype Entry = Entry(sid: Sid, attempts: nat, due: int)
  datatype Job = Job(id: nat, entry: Entry)
  datatype Letter = Letter(sid: Sid, attempts: nat)  // sid "" stands for a malformed record
  datatype Distilled = Learned | Failed(permanent: bool)

  function Pow2(n: nat): nat { if n == 0 then 1 else 2 * Pow2(n - 1) }

  function Backoff(attempts: nat): nat {
    if BACKOFF_BASE * Pow2(attempts) < BACKOFF_CAP then BACKOFF_BASE * Pow2(attempts) else BACKOFF_CAP
  }

  // ---- the processes ----

  const COMPLETE_RETRIES := 8
  const POINTER_RETRIES := 5

  datatype CompletePhase =
    | Ready
    | Watching
    | Read(m: Meta)
    | PointersWatched(m: Meta)
    | PointersRead(m: Meta, stale: set<Label>)
    | Ended(result: CompleteResult)

  // dirty: some watched key was written since it was watched.
  datatype Completer = Completer(req: CompleteRequest, attempt: nat, dirty: bool, phase: CompletePhase)

  datatype GuardRequest =
    | StartReq(agent: Label, sid: Sid, owner: Owner)
    | ResumeReq(agent: Label, sid: Sid, takeover: bool)

  datatype GuardPhase =
    | Entering
    | GotPointer(p: Option<Sid>)
    | Checked(p: Option<Sid>, seen: Option<Meta>)
    | Left(why: Option<Refusal>)

  datatype Guard = Guard(caller: Caller, req: GuardRequest, attempt: nat, phase: GuardPhase)

  // Settled: the terminal write or the re-enqueue is behind it, or the job is void.
  datatype Worker =
    | Head(batch: seq<Job>)
    | Loaded(job: Job, rest: seq<Job>)
    | Parked(job: Job, rest: seq<Job>)
    | Marked(job: Job, rest: seq<Job>)
    | Settled(job: Job, rest: seq<Job>)

  datatype Requeuer = Popped(letter: Letter) | Found(letter: Letter) | Enqueued(sid: Sid, id: nat)

  datatype Sys = Sys(
    store: Store,
    queue: map<nat, Entry>,
    nextId: nat,
    dlq: seq<Letter>,  // newest first
    completers: map<nat, Completer>,
    guards: map<nat, Guard>,
    workers: map<nat, Worker>,
    requeuers: map<nat, Requeuer>,
    issued: set<Sid>)  // every id a session was ever started under

  const INIT := Sys(Store(map[], map[], []), map[], 0, [], map[], map[], map[], map[], {})

  // Operations taken as one step. Their session_id argument is already resolved.
  datatype Op =
    | Start(agent: Label, sid: Sid, owner: Owner, ts: int)
    | Resume(agent: Label, sid: Sid, takeover: bool, member: string, ts: int)
    | Update(agent: Label, named: Option<Sid>, caller: Option<Caller>, ts: int)
    | Abandon(agent: Label, sid: Sid)
    | Reap(sid: Sid)
    | Sweep
    | Lapse(sid: Sid)

  datatype CompleteStep =
    | Begin(req: CompleteRequest)
    | Watch
    | ReadMeta
    | WatchPointers
    | ReadPointers
    | Exec(now: int)
    | Rewritten  // a watched key was rewritten with the value it had

  datatype GuardStep = Enter(caller: Caller, req: GuardRequest) | Get | Check | Script(ts: int)

  datatype WorkStep =
    | Fetch(ids: seq<nat>)
    | Skip
    | Load
    | Outcome(distilled: Distilled, now: int)
    | MarkDead
    | ApplyTtl
    | Drop
    | Crash

  datatype RequeueStep = Pop | Look | Enqueue(now: int) | SetStatus | Restore | Die

  datatype Action =
    | Manage(op: Op)
    | Complete(c: nat, complete: CompleteStep)
    | Guarded(g: nat, guard: GuardStep)
    | Work(w: nat, work: WorkStep)
    | Requeue(r: nat, requeue: RequeueStep)

  // ---- completion steps ----

  // What one command does: the process it leaves, the store, the queue entry it adds.
  datatype CompleteEffect = CompleteEffect(proc: Completer, store: Store, added: Option<Entry>)

  function StaleLabels(pointer: map<Label, Sid>, labels: set<Label>, sid: Sid): set<Label> {
    set l | l in labels && l != "" && l in pointer && pointer[l] == sid
  }

  function CompleteMove(cfg: Config, st: Store, proc: Completer, step: CompleteStep): CompleteEffect {
    var req := proc.req;
    if step.Watch? && proc.phase.Ready? then
      CompleteEffect(proc.(phase := Watching, dirty := false), st, None)
    else if step.ReadMeta? && proc.phase.Watching? then
      var m := Lookup(st.meta, req.sid);
      var why := CompleteRefusal(cfg, m, req);
      CompleteEffect(proc.(phase := if why.Some? then Ended(Refused(why.value)) else Read(m.value)), st, None)
    else if step.WatchPointers? && proc.phase.Read? then
      CompleteEffect(proc.(phase := PointersWatched(proc.phase.m)), st, None)
    else if step.ReadPointers? && proc.phase.PointersWatched? then
      var m := proc.phase.m;
      CompleteEffect(
        proc.(phase := PointersRead(m, StaleLabels(st.pointer, {m.agent, req.agent}, req.sid))), st, None)
    else if step.Exec? && proc.phase.PointersRead? then
      if !proc.dirty then
        CompleteEffect(
          proc.(phase := Ended(Done(CompleteReplyOf(proc.phase.m, req)))),
          ExecStore(st, req, proc.phase.m, proc.phase.stale),
          Some(Entry(req.sid, 0, step.now)))
      else if proc.attempt + 1 < COMPLETE_RETRIES then
        CompleteEffect(proc.(attempt := proc.attempt + 1, phase := Ready), st, None)
      else
        CompleteEffect(proc.(phase := Ended(Refused(Contended))), st, None)
    else if step.Rewritten? then
      CompleteEffect(proc.(dirty := true), st, None)
    else
      CompleteEffect(proc, st, None)
  }

  // The queued commands of the MULTI block, as EXEC applies them.
  function ExecStore(st: Store, req: CompleteRequest, m: Meta, stale: set<Label>): Store {
    st.(pointer := st.pointer - stale,
        meta := st.meta[req.sid := CompletedMeta(Hash(st.meta, req.sid), WritesGrade(m, req), req)])
  }

  function AddEntry(queue: map<nat, Entry>, nextId: nat, e: Option<Entry>): map<nat, Entry> {
    if e.Some? then queue[nextId := e.value] else queue
  }

  function NewId(nextId: nat, e: Option<Entry>): nat {
    if e.Some? then nextId + 1 else nextId
  }

  function CompleterAct(cfg: Config, sys: Sys, c: nat, step: CompleteStep): Sys {
    if step.Begin? then
      if c in sys.completers || step.req.sid == "" then sys
      else
        sys.(completers :=
          sys.completers[c := Completer(step.req.(agent := Named(cfg, step.req.agent)), 0, false, Ready)])
    else if c !in sys.completers then sys
    else
      var e := CompleteMove(cfg, sys.store, sys.completers[c], step);
      sys.(completers := sys.completers[c := e.proc],
           store := e.store,
           queue := AddEntry(sys.queue, sys.nextId, e.added),
           nextId := NewId(sys.nextId, e.added))
  }

  predicate Disturbed(before: Store, after: Store, c: Completer) {
    match c.phase
    case Watching => Lookup(before.meta, c.req.sid) != Lookup(after.meta, c.req.sid)
    case Read(_) => Lookup(before.meta, c.req.sid) != Lookup(after.meta, c.req.sid)
    case PointersWatched(m) => DisturbedKeys(before, after, c.req, m)
    case PointersRead(m, _) => DisturbedKeys(before, after, c.req, m)
    case _ => false
  }

  predicate DisturbedKeys(before: Store, after: Store, req: CompleteRequest, m: Meta) {
    || Lookup(before.meta, req.sid) != Lookup(after.meta, req.sid)
    || (m.agent != "" && Lookup(before.pointer, m.agent) != Lookup(after.pointer, m.agent))
    || (req.agent != "" && Lookup(before.pointer, req.agent) != Lookup(after.pointer, req.agent))
  }

  // Redis marks a watching client as soon as a key it watches changes.
  function Observe(before: Store, after: Store, c: Completer): Completer {
    if Disturbed(before, after, c) then c.(dirty := true) else c
  }

  // ---- guarded start and resume ----

  // A resume's own checks, and the label it finds its session under, are taken at
  // its script. ResumeRaces has what other clients can do to the session between
  // the first read and the script.

  datatype GuardEffect = GuardEffect(proc: Guard, store: Store, started: set<Sid>)

  function GuardMove(cfg: Config, st: Store, proc: Guard, step: GuardStep): GuardEffect {
    var req := proc.req;
    if step.Get? && proc.phase.Entering? then
      GuardEffect(proc.(phase := GotPointer(Lookup(st.pointer, req.agent))), st, {})
    else if step.Check? && proc.phase.GotPointer? then
      GuardEffect(proc.(phase := GuardVerdict(cfg, st, proc, proc.phase.p)), st, {})
    else if step.Script? && proc.phase.Checked? then
      if Lookup(st.pointer, req.agent) != proc.phase.p then
        if proc.attempt + 1 < POINTER_RETRIES then
          GuardEffect(proc.(attempt := proc.attempt + 1, phase := Entering), st, {})
        else
          GuardEffect(proc.(phase := Left(Some(Contended))), st, {})
      else if req.StartReq? then
        if FreshId(st, req.sid) then
          GuardEffect(
            proc.(phase := Left(None)), StartCommit(cfg, st, req.agent, req.sid, req.owner, step.ts), {req.sid})
        else
          GuardEffect(proc, st, {})
      else
        var why := ResumeRefusal(cfg, st, req.sid, req.agent, req.takeover, Verified(proc.caller));
        GuardEffect(proc.(phase := Left(why)),
          if why.None? then ResumeCommit(st, req.sid, req.agent, step.ts) else st, {})
    else
      GuardEffect(proc, st, {})
  }

  // The ownership read of _guard_pointer; resume's own target needs none.
  function GuardVerdict(cfg: Config, st: Store, proc: Guard, p: Option<Sid>): GuardPhase {
    if p.None? || (proc.req.ResumeReq? && p.value == proc.req.sid) then Checked(p, None)
    else
      var seen := Lookup(st.meta, p.value);
      if seen.Some? && !Owns(cfg.deployment, seen.value.owner, proc.caller) then Left(Some(WrongOwner))
      else Checked(p, seen)
  }

  function GuardAct(cfg: Config, sys: Sys, g: nat, step: GuardStep): Sys {
    if step.Enter? then
      if g in sys.guards then sys
      else
        sys.(guards :=
          sys.guards[g := Guard(step.caller, step.req.(agent := Named(cfg, step.req.agent)), 0, Entering)])
    else if g !in sys.guards then sys
    else
      var e := GuardMove(cfg, sys.store, sys.guards[g], step);
      sys.(guards := sys.guards[g := e.proc], store := e.store, issued := sys.issued + e.started)
  }

  // A guarded script starts, resumes, or leaves the store alone.
  lemma GuardStoreCases(cfg: Config, sys: Sys, g: nat, step: GuardStep)
    ensures var after := GuardAct(cfg, sys, g, step);
            || (after.store == sys.store && after.issued == sys.issued)
            || (g in sys.guards && step.Script? &&
                var req := sys.guards[g].req;
                && sys.guards[g].phase.Checked?
                && Lookup(sys.store.pointer, req.agent) == sys.guards[g].phase.p
                && if req.StartReq? then
                  && FreshId(sys.store, req.sid)
                  && after.store == StartCommit(cfg, sys.store, req.agent, req.sid, req.owner, step.ts)
                  && after.issued == sys.issued + {req.sid}
                else
                  && ResumeRefusal(
                       cfg, sys.store, req.sid, req.agent, req.takeover, Verified(sys.guards[g].caller)).None?
                  && after.store == ResumeCommit(sys.store, req.sid, req.agent, step.ts)
                  && after.issued == sys.issued)
  {
    hide StartCommit, ResumeCommit;
    assert sys.issued + {} == sys.issued;
  }

  // ---- the distillation worker ----

  datatype WorkEffect = WorkEffect(
    proc: Worker, store: Store, letters: seq<Letter>, added: Option<Entry>, removed: set<nat>)

  function WorkMove(st: Store, proc: Worker, step: WorkStep): WorkEffect {
    if proc.Head? && proc.batch != [] && step.Skip? then
      WorkEffect(Head(proc.batch[1..]), st, [], None, {})
    else if proc.Head? && proc.batch != [] && step.Load? then
      var job, rest := proc.batch[0], proc.batch[1..];
      WorkEffect(
        if job.entry.sid == "" || job.entry.sid !in st.meta then Settled(job, rest) else Loaded(job, rest),
        st, [], None, {})
    else if proc.Loaded? && step.Outcome? then
      var entry := proc.job.entry;
      if step.distilled.Learned? then
        WorkEffect(Marked(proc.job, proc.rest), SetDistillation(st, entry.sid, Succeeded), [], None, {})
      else if entry.attempts + 1 >= MAX_ATTEMPTS || step.distilled.permanent then
        WorkEffect(Parked(proc.job, proc.rest), st, [Letter(entry.sid, entry.attempts + 1)], None, {})
      else
        WorkEffect(Settled(proc.job, proc.rest), st, [], Some(Retry(entry, step.now)), {})
    else if proc.Parked? && step.MarkDead? then
      WorkEffect(Marked(proc.job, proc.rest), SetDistillation(st, proc.job.entry.sid, DeadLettered), [], None, {})
    else if proc.Marked? && step.ApplyTtl? then
      WorkEffect(Settled(proc.job, proc.rest), SetExpiry(st, proc.job.entry.sid), [], None, {})
    else if proc.Settled? && step.Drop? then
      WorkEffect(Head(proc.rest), st, [], None, {proc.job.id})
    else
      WorkEffect(proc, st, [], None, {})
  }

  // The job a failed attempt leaves behind.
  function Retry(entry: Entry, now: int): Entry {
    Entry(entry.sid, entry.attempts + 1, now + Backoff(entry.attempts + 1))
  }

  // The only store a worker writes is the one of the job it holds.
  lemma WorkStoreCases(st: Store, proc: Worker, step: WorkStep)
    ensures var after := WorkMove(st, proc, step).store;
            || after == st
            || (!proc.Head? && exists d :: d != Queued && after == SetDistillation(st, proc.job.entry.sid, d))
            || (!proc.Head? && after == SetExpiry(st, proc.job.entry.sid))
  {
    hide SetDistillation, SetExpiry;
  }

  function WorkerAct(sys: Sys, w: nat, step: WorkStep): Sys {
    if step.Crash? then sys.(workers := sys.workers - {w})
    else if step.Fetch? then
      if w in sys.workers && sys.workers[w] != Head([]) then sys
      else if |step.ids| <= 100 && forall i | 0 <= i < |step.ids| :: step.ids[i] in sys.queue then
        sys.(workers := sys.workers[w := Head(JobsFor(sys.queue, step.ids))])
      else sys
    else if w !in sys.workers then sys
    else
      var e := WorkMove(sys.store, sys.workers[w], step);
      sys.(workers := sys.workers[w := e.proc],
           store := e.store,
           dlq := e.letters + sys.dlq,
           queue := AddEntry(sys.queue, sys.nextId, e.added) - e.removed,
           nextId := NewId(sys.nextId, e.added))
  }

  function JobsFor(queue: map<nat, Entry>, ids: seq<nat>): seq<Job>
    requires forall i | 0 <= i < |ids| :: ids[i] in queue
  {
    seq(|ids|, i requires 0 <= i < |ids| => Job(ids[i], queue[ids[i]]))
  }

  // ---- requeue_dlq ----

  datatype RequeueEffect = RequeueEffect(
    proc: Option<Requeuer>, store: Store, letters: seq<Letter>, added: Option<Entry>)

  function RequeueMove(st: Store, nextId: nat, proc: Requeuer, step: RequeueStep): RequeueEffect {
    if step.Die? then
      RequeueEffect(None, st, [], None)
    else if step.Restore? && !proc.Enqueued? then
      RequeueEffect(None, st, [proc.letter], None)
    else if step.Look? && proc.Popped? then
      if proc.letter.sid == "" then RequeueEffect(None, st, [proc.letter], None)
      else RequeueEffect(if proc.letter.sid in st.meta then Some(Found(proc.letter)) else None, st, [], None)
    else if step.Enqueue? && proc.Found? then
      RequeueEffect(Some(Enqueued(proc.letter.sid, nextId)), st, [], Some(Entry(proc.letter.sid, 0, step.now)))
    else if step.SetStatus? && proc.Enqueued? then
      RequeueEffect(None, SetDistillation(st, proc.sid, Queued), [], None)
    else
      RequeueEffect(Some(proc), st, [], None)
  }

  function RequeueAct(sys: Sys, r: nat, step: RequeueStep): Sys {
    if step.Pop? then
      if r in sys.requeuers || sys.dlq == [] then sys
      else
        var last := |sys.dlq| - 1;
        sys.(requeuers := sys.requeuers[r := Popped(sys.dlq[last])], dlq := sys.dlq[..last])
    else if r !in sys.requeuers then sys
    else
      var e := RequeueMove(sys.store, sys.nextId, sys.requeuers[r], step);
      sys.(requeuers := if e.proc.Some? then sys.requeuers[r := e.proc.value] else sys.requeuers - {r},
           store := e.store,
           dlq := e.letters + sys.dlq,
           queue := AddEntry(sys.queue, sys.nextId, e.added),
           nextId := NewId(sys.nextId, e.added))
  }

  // ---- one step, and whole runs ----

  function ManageStore(cfg: Config, st: Store, op: Op): Store {
    match op
    case Start(agent, sid, owner, ts) =>
      if FreshId(st, sid) then StartCommit(cfg, st, Named(cfg, agent), sid, owner, ts) else st
    case Resume(agent, sid, takeover, member, ts) =>
      if ResumeRefusal(cfg, st, sid, Named(cfg, agent), takeover, Claimed(member)).Some? then st
      else ResumeCommit(st, sid, Named(cfg, agent), ts)
    case Update(agent, named, caller, ts) =>
      if UpdateRefusal(cfg, st, named, Named(cfg, agent), caller).Some? then st
      else UpdateCommit(st, UpdateTarget(st, named, Named(cfg, agent)).value, ts)
    case Abandon(agent, sid) =>
      if AbandonRefusal(st, sid, Named(cfg, agent)).Some? then st
      else AbandonCommit(st, sid, Named(cfg, agent))
    case Reap(sid) => ReapOne(cfg, st, sid)
    case Sweep => Evict(cfg, st)
    case Lapse(sid) => Expire(st, sid)
  }

  function Act(cfg: Config, sys: Sys, a: Action): Sys {
    match a
    case Manage(op) =>
      sys.(store := ManageStore(cfg, sys.store, op),
           issued := if op.Start? && FreshId(sys.store, op.sid) then sys.issued + {op.sid} else sys.issued)
    case Complete(c, step) => CompleterAct(cfg, sys, c, step)
    case Guarded(g, step) => GuardAct(cfg, sys, g, step)
    case Work(w, step) => WorkerAct(sys, w, step)
    case Requeue(r, step) => RequeueAct(sys, r, step)
  }

  function Next(cfg: Config, sys: Sys, a: Action): Sys {
    var after := Act(cfg, sys, a);
    after.(completers := map c | c in after.completers :: Observe(sys.store, after.store, after.completers[c]))
  }

  function Run(cfg: Config, sys: Sys, run: seq<Action>): Sys {
    if run == [] then sys else Next(cfg, Run(cfg, sys, run[..|run| - 1]), run[|run| - 1])
  }
}
