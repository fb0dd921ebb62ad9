/** Sessions through whole runs: exactly which steps bring back a session that was
    over, and what else holds while none does. */
module Lifecycle {
  import opened Wrappers
  import opened Principal
  import opened SessionStore
  import opened Eviction
  import opened Protocol
  import opened Completion
  import opened ActivePointers
  import opened Grades
  import opened QueueSafety

  // s was started once and is neither active nor paused any more.
  predicate Over(issued: set<Sid>, st: Store, s: Sid) {
    s in issued && (s in st.meta ==> !Live(st.meta[s].status))
  }

  predicate PointerExact(st: Store) {
    forall a :: a in st.pointer ==>
      a != "" && st.pointer[a] in st.meta
      && st.meta[st.pointer[a]].status == Active && st.meta[st.pointer[a]].agent == a
  }

  predicate StoreSound(issued: set<Sid>, st: Store) {
    && PointerExact(st)
    && (forall s :: s in st.meta ==> s in issued)
    && (forall s :: s in st.meta && st.meta[s].expiring ==> !Live(st.meta[s].status))
  }

  // The store stays sound and nothing that was over comes back.
  ghost predicate Advances(issued: set<Sid>, st: Store, issued': set<Sid>, st': Store) {
    StoreSound(issued', st') && issued <= issued' && forall s :: Over(issued, st, s) ==> Over(issued', st', s)
  }

  lemma BegunAdvances(issued: set<Sid>, st: Store, agent: Label, sid: Sid, owner: Owner, ts: int)
    requires StoreSound(issued, st) && FreshId(st, sid) && sid !in issued && agent != ""
    ensures Advances(issued, st, issued + {sid}, Begun(st, agent, sid, owner, ts))
  {
    hide ZAdd;
    var begun := Begun(st, agent, sid, owner, ts);
    assert PointerExact(begun);
  }

  lemma EvictAdvances(cfg: Config, issued: set<Sid>, st: Store, issued': set<Sid>, st': Store)
    requires Advances(issued, st, issued', st')
    ensures Advances(issued, st, issued', Evict(cfg, st'))
  {
    EvictAllThins(cfg, st', Candidates(cfg, st'));
  }

  lemma StartAdvances(cfg: Config, issued: set<Sid>, st: Store, agent: Label, sid: Sid, owner: Owner, ts: int)
    requires StoreSound(issued, st) && FreshId(st, sid) && sid !in issued && agent != ""
    ensures Advances(issued, st, issued + {sid}, StartCommit(cfg, st, agent, sid, owner, ts))
  {
    BegunAdvances(issued, st, agent, sid, owner, ts);
    EvictAdvances(cfg, issued, st, issued + {sid}, Begun(st, agent, sid, owner, ts));
    hide Begun, Evict;
  }

  lemma ResumePointerExact(st: Store, sid: Sid, agent: Label, ts: int)
    requires PointerExact(st) && agent != "" && sid in st.meta
    requires Terminal(st.meta[sid].status) || st.meta[sid].agent in {"", agent} || st.meta[sid].status != Active
    ensures PointerExact(ResumeCommit(st, sid, agent, ts))
  {
    hide ZAdd;
  }

  lemma ResumeAdvances(
    cfg: Config, issued: set<Sid>, st: Store, sid: Sid, agent: Label, takeover: bool, auth: Auth, ts: int)
    requires StoreSound(issued, st) && agent != ""
    requires ResumeRefusal(cfg, st, sid, agent, takeover, auth).None? && st.meta[sid].status != Unset
    ensures Advances(issued, st, issued, ResumeCommit(st, sid, agent, ts))
  {
    hide ZAdd;
    ResumePointerExact(st, sid, agent, ts);
    hide DropPointers, Refuses, PointerExact;
    PointedAreActive(st);
  }

  lemma PointedAreActive(st: Store)
    requires PointerExact(st)
    ensures forall a :: a in st.pointer ==> st.pointer[a] in st.meta && st.meta[st.pointer[a]].status == Active
  {
  }

  // Two things the code leaves to chance: a new id was used before, or the
  // hash a resume finds records no status.
  predicate RevivesStart(issued: set<Sid>, st: Store, sid: Sid) {
    FreshId(st, sid) && sid in issued
  }

  predicate RevivesResume(cfg: Config, st: Store, sid: Sid, agent: Label, takeover: bool, auth: Auth) {
    ResumeRefusal(cfg, st, sid, agent, takeover, auth).None? && st.meta[sid].status == Unset
  }

  predicate RevivesOp(cfg: Config, issued: set<Sid>, st: Store, op: Op) {
    match op
    case Start(_, sid, _, _) => RevivesStart(issued, st, sid)
    case Resume(agent, sid, takeover, member, _) =>
      RevivesResume(cfg, st, sid, Named(cfg, agent), takeover, Claimed(member))
    case _ => false
  }

  predicate RevivesScript(cfg: Config, issued: set<Sid>, st: Store, g: Guard) {
    && g.phase.Checked? && Lookup(st.pointer, g.req.agent) == g.phase.p
    && match g.req
       case StartReq(_, sid, _) => RevivesStart(issued, st, sid)
       case ResumeReq(agent, sid, takeover) => RevivesResume(cfg, st, sid, agent, takeover, Verified(g.caller))
  }

  lemma ManageAdvances(cfg: Config, issued: set<Sid>, st: Store, op: Op)
    requires StoreSound(issued, st) && !RevivesOp(cfg, issued, st, op) && cfg.defaultAgent != ""
    ensures var issued' := if op.Start? && FreshId(st, op.sid) then issued + {op.sid} else issued;
            Advances(issued, st, issued', ManageStore(cfg, st, op))
  {
    match op
    case Start(agent, sid, owner, ts) =>
      if FreshId(st, sid) { StartAdvances(cfg, issued, st, Named(cfg, agent), sid, owner, ts); }
      hide StartCommit;
    case Resume(agent, sid, takeover, member, ts) =>
      if ResumeRefusal(cfg, st, sid, Named(cfg, agent), takeover, Claimed(member)).None? {
        ResumeAdvances(cfg, issued, st, sid, Named(cfg, agent), takeover, Claimed(member), ts);
      }
      hide ResumeCommit;
    case Sweep => EvictAdvances(cfg, issued, st, issued, st); hide Evict;
    case _ => hide StartCommit, Evict, ResumeCommit;
  }

  // ---- nothing still to be distilled is alive ----

  function RequeuedSid(r: Requeuer): Sid {
    if r.Enqueued? then r.sid else r.letter.sid
  }

  // The queue, a worker, the dead letters or a requeuer mention s.
  ghost predicate Names(sys: Sys, s: Sid) {
    || (exists id :: id in sys.queue && sys.queue[id].sid == s)
    || (exists w, job :: w in sys.workers && job in JobsOf(sys.workers[w]) && job.entry.sid == s)
    || (exists letter :: letter in sys.dlq && letter.sid == s)
    || (exists r :: r in sys.requeuers && RequeuedSid(sys.requeuers[r]) == s)
  }

  ghost predicate NamedAreOver(sys: Sys) {
    forall s :: s != "" && Names(sys, s) ==> Over(sys.issued, sys.store, s)
  }

  lemma CompleterNames(cfg: Config, sys: Sys, c: nat, step: CompleteStep, s: Sid)
    requires Names(CompleterAct(cfg, sys, c, step), s) && !Names(sys, s)
    ensures c in sys.completers && CompleteMove(cfg, sys.store, sys.completers[c], step).added.Some?
    ensures s == CompleteMove(cfg, sys.store, sys.completers[c], step).added.value.sid
  {
    hide CompleteMove;
  }

  lemma WorkMoveNames(st: Store, proc: Worker, step: WorkStep, s: Sid)
    requires var e := WorkMove(st, proc, step);
             || (exists job :: job in JobsOf(e.proc) && job.entry.sid == s)
             || (exists letter :: letter in e.letters && letter.sid == s)
             || (e.added.Some? && e.added.value.sid == s)
    ensures exists job :: job in JobsOf(proc) && job.entry.sid == s
  {
    assert !proc.Head? ==> proc.job in JobsOf(proc);
    hide SetDistillation, SetExpiry;
  }

  lemma WorkerNames(sys: Sys, w: nat, step: WorkStep, s: Sid)
    requires Names(WorkerAct(sys, w, step), s)
    ensures Names(sys, s)
  {
    var after := WorkerAct(sys, w, step);
    hide WorkMove;
    if w in sys.workers && !step.Fetch? && !step.Crash? {
      var e := WorkMove(sys.store, sys.workers[w], step);
      if || (exists job :: job in JobsOf(e.proc) && job.entry.sid == s)
         || (exists letter :: letter in e.letters && letter.sid == s)
         || (e.added.Some? && e.added.value.sid == s)
      {
        WorkMoveNames(sys.store, sys.workers[w], step, s);
      }
    }
  }

  lemma RequeueNames(sys: Sys, r: nat, step: RequeueStep, s: Sid)
    requires Names(RequeueAct(sys, r, step), s)
    ensures Names(sys, s)
  {
    hide SetDistillation;
    if r in sys.requeuers {
      assert RequeuedSid(sys.requeuers[r]) == s ==> Names(sys, s);
    }
  }

  // ---- what a guard has seen ----

  predicate GuardOk(issued: set<Sid>, st: Store, cfg: Config, g: Guard) {
    g.req.agent != "" &&
    match g.phase
    case GotPointer(p) => p.Some? ==> p.value in issued
    case Checked(p, seen) =>
      p.Some? && !(g.req.ResumeReq? && p.value == g.req.sid) ==>
        if seen.None? then Over(issued, st, p.value)
        else
          && p.value in issued
          && Owns(cfg.deployment, seen.value.owner, g.caller)
          && (Over(issued, st, p.value) || (p.value in st.meta && st.meta[p.value].owner == seen.value.owner))
    case _ => true
  }

  ghost predicate SysSound(cfg: Config, sys: Sys) {
    && StoreSound(sys.issued, sys.store)
    && NamedAreOver(sys)
    && (forall g :: g in sys.guards ==> GuardOk(sys.issued, sys.store, cfg, sys.guards[g]))
  }

  ghost predicate SysAdvances(sys: Sys, sys': Sys) {
    Advances(sys.issued, sys.store, sys'.issued, sys'.store)
  }

  predicate Revives(cfg: Config, sys: Sys, a: Action) {
    match a
    case Manage(op) => RevivesOp(cfg, sys.issued, sys.store, op)
    case Guarded(g, step) => g in sys.guards && step.Script? && RevivesScript(cfg, sys.issued, sys.store, sys.guards[g])
    case _ => false
  }

  // A run in which neither happens.
  predicate TameRun(cfg: Config, run: seq<Action>) {
    run != [] ==>
      var before := run[..|run| - 1];
      TameRun(cfg, before) && !Revives(cfg, Run(cfg, INIT, before), run[|run| - 1])
  }

  lemma CompleteAdvances(issued: set<Sid>, st: Store, req: CompleteRequest)
    requires StoreSound(issued, st) && req.sid in st.meta && req.agent != ""
    ensures Advances(issued, st, issued, CompleteCommit(st, req))
  {
    assert PointerExact(CompleteCommit(st, req));
  }

  lemma MarkAdvances(issued: set<Sid>, st: Store, s: Sid, d: Distillation)
    requires StoreSound(issued, st) && Over(issued, st, s)
    ensures Advances(issued, st, issued, SetDistillation(st, s, d))
    ensures Advances(issued, st, issued, SetExpiry(st, s))
  {
  }

  lemma CompleterAdvances(cfg: Config, sys: Sys, c: nat, step: CompleteStep)
    requires SysSound(cfg, sys) && CompletersFaithful(cfg, sys) && cfg.defaultAgent != ""
    ensures SysAdvances(sys, CompleterAct(cfg, sys, c, step))
  {
    CompleterStoreCases(cfg, sys, c, step);
    if c in sys.completers && sys.completers[c].req.sid in sys.store.meta {
      CompleteAdvances(sys.issued, sys.store, sys.completers[c].req);
    }
    assert CompleterAct(cfg, sys, c, step).issued == sys.issued;
    hide CompleterAct, CompleteCommit;
  }

  lemma GuardAdvances(cfg: Config, sys: Sys, g: nat, step: GuardStep)
    requires SysSound(cfg, sys) && !Revives(cfg, sys, Guarded(g, step))
    ensures SysAdvances(sys, GuardAct(cfg, sys, g, step))
  {
    GuardStoreCases(cfg, sys, g, step);
    hide GuardAct, StartCommit, ResumeCommit;
    if g in sys.guards && step.Script? {
      var proc := sys.guards[g];
      var req := proc.req;
      assert GuardOk(sys.issued, sys.store, cfg, proc);
      if !proc.phase.Checked? || Lookup(sys.store.pointer, req.agent) != proc.phase.p {
      } else if req.StartReq? && FreshId(sys.store, req.sid) {
        StartAdvances(cfg, sys.issued, sys.store, req.agent, req.sid, req.owner, step.ts);
      } else if req.ResumeReq?
             && ResumeRefusal(cfg, sys.store, req.sid, req.agent, req.takeover, Verified(proc.caller)).None? {
        ResumeAdvances(cfg, sys.issued, sys.store, req.sid, req.agent, req.takeover, Verified(proc.caller), step.ts);
      }
    }
  }

  lemma WorkerAdvances(cfg: Config, sys: Sys, w: nat, step: WorkStep)
    requires SysSound(cfg, sys) && QueueOk(sys)
    ensures SysAdvances(sys, WorkerAct(sys, w, step))
  {
    hide SetDistillation, SetExpiry, WorkMove;
    if w in sys.workers {
      var proc := sys.workers[w];
      WorkStoreCases(sys.store, proc, step);
      if !proc.Head? {
        assert proc.job in JobsOf(proc);
        assert Names(sys, proc.job.entry.sid);
        MarkAdvances(sys.issued, sys.store, proc.job.entry.sid, Idle);
        forall d { MarkAdvances(sys.issued, sys.store, proc.job.entry.sid, d); }
      }
    }
  }

  lemma RequeueAdvances(cfg: Config, sys: Sys, r: nat, step: RequeueStep)
    requires SysSound(cfg, sys) && QueueOk(sys)
    ensures SysAdvances(sys, RequeueAct(sys, r, step))
  {
    hide SetDistillation;
    if r in sys.requeuers && sys.requeuers[r].Enqueued? {
      assert RequeuedSid(sys.requeuers[r]) == sys.requeuers[r].sid;
      assert Names(sys, sys.requeuers[r].sid);
      MarkAdvances(sys.issued, sys.store, sys.requeuers[r].sid, Queued);
    }
  }

  // ---- one tame step keeps everything sound ----

  ghost predicate Invariant(cfg: Config, sys: Sys) {
    cfg.defaultAgent != "" && SysSound(cfg, sys) && QueueOk(sys) && CompletersFaithful(cfg, sys)
  }

  lemma NextAdvances(cfg: Config, sys: Sys, a: Action)
    requires Invariant(cfg, sys) && !Revives(cfg, sys, a)
    ensures SysAdvances(sys, Next(cfg, sys, a))
  {
    match a
    case Manage(op) => ManageAdvances(cfg, sys.issued, sys.store, op);
    case Complete(c, step) => CompleterAdvances(cfg, sys, c, step);
    case Guarded(g, step) => GuardAdvances(cfg, sys, g, step);
    case Work(w, step) => WorkerAdvances(cfg, sys, w, step);
    case Requeue(r, step) => RequeueAdvances(cfg, sys, r, step);
    hide Advances, ManageStore, CompleterAct, GuardAct, WorkerAct, RequeueAct;
  }

  lemma ActNames(cfg: Config, sys: Sys, a: Action, s: Sid)
    requires Invariant(cfg, sys) && Names(Act(cfg, sys, a), s)
    ensures Names(sys, s) || Over(Act(cfg, sys, a).issued, Act(cfg, sys, a).store, s)
  {
    match a
    case Manage(_) => hide ManageStore;
    case Complete(c, step) =>
      if !Names(sys, s) {
        CompleterNames(cfg, sys, c, step, s);
        CompletedIsOver(cfg, sys, c, step);
        hide CompleteMove, Names, Over;
      }
    case Guarded(g, step) => GuardKeepsQueue(cfg, sys, g, step); hide GuardAct;
    case Work(w, step) => WorkerNames(sys, w, step, s); hide WorkerAct;
    case Requeue(r, step) => RequeueNames(sys, r, step, s); hide RequeueAct;
  }

  // An entry a completer adds names the session it has just closed.
  lemma CompletedIsOver(cfg: Config, sys: Sys, c: nat, step: CompleteStep)
    requires SysSound(cfg, sys) && CompletersFaithful(cfg, sys) && c in sys.completers && !step.Begin?
    ensures var e := CompleteMove(cfg, sys.store, sys.completers[c], step);
            e.added.Some? ==> Over(sys.issued, e.store, e.added.value.sid)
  {
  }

  lemma NextKeepsNamedOver(cfg: Config, sys: Sys, a: Action)
    requires Invariant(cfg, sys) && !Revives(cfg, sys, a)
    ensures NamedAreOver(Next(cfg, sys, a))
  {
    var act, after := Act(cfg, sys, a), Next(cfg, sys, a);
    NextAdvances(cfg, sys, a);
    forall s | s != "" && Names(after, s) ensures Over(after.issued, after.store, s) {
      assert Names(act, s);
      ActNames(cfg, sys, a, s);
    }
    hide Act, StoreSound, Over;
  }

  lemma GuardMoveOk(cfg: Config, sys: Sys, g: nat, step: GuardStep)
    requires Invariant(cfg, sys) && g in GuardAct(cfg, sys, g, step).guards
    ensures GuardOk(sys.issued, sys.store, cfg, GuardAct(cfg, sys, g, step).guards[g])
  {
    hide StartCommit, ResumeCommit, NamedAreOver, QueueOk, CompletersFaithful, ResumeRefusal;
    if g in sys.guards {
      assert GuardOk(sys.issued, sys.store, cfg, sys.guards[g]);
    }
  }

  lemma ActMovesOneGuard(cfg: Config, sys: Sys, a: Action, g: nat)
    requires g in Act(cfg, sys, a).guards && !(a.Guarded? && a.g == g)
    ensures g in sys.guards && Act(cfg, sys, a).guards[g] == sys.guards[g]
  {
    hide ManageStore, CompleteMove, GuardMove, WorkMove, RequeueMove;
  }

  // What a guard knows survives a step that advances the store and keeps owners.
  lemma GuardOkAdvances(cfg: Config, sys: Sys, after: Sys, g: Guard)
    requires SysAdvances(sys, after) && Remembers(sys.store, after.store)
    requires GuardOk(sys.issued, sys.store, cfg, g)
    ensures GuardOk(after.issued, after.store, cfg, g)
  {
    hide PointerExact;
  }

  lemma NextKeepsGuards(cfg: Config, sys: Sys, a: Action, g: nat)
    requires Invariant(cfg, sys) && !Revives(cfg, sys, a) && g in Next(cfg, sys, a).guards
    ensures GuardOk(Next(cfg, sys, a).issued, Next(cfg, sys, a).store, cfg, Next(cfg, sys, a).guards[g])
  {
    NextAdvances(cfg, sys, a);
    NextKeepsRecords(cfg, sys, a);
    if a.Guarded? && a.g == g {
      GuardMoveOk(cfg, sys, g, a.guard);
    } else {
      ActMovesOneGuard(cfg, sys, a, g);
      assert GuardOk(sys.issued, sys.store, cfg, sys.guards[g]);
    }
    GuardOkAdvances(cfg, sys, Next(cfg, sys, a), Next(cfg, sys, a).guards[g]);
    hide GuardOk, GuardAct, CompleterAct, WorkerAct, RequeueAct, ManageStore, SysAdvances, KeepsRecords;
  }

  lemma NextKeepsInvariant(cfg: Config, sys: Sys, a: Action)
    requires Invariant(cfg, sys) && !Revives(cfg, sys, a)
    ensures Invariant(cfg, Next(cfg, sys, a))
  {
    NextAdvances(cfg, sys, a);
    NextKeepsNamedOver(cfg, sys, a);
    NextKeepsFaithful(cfg, sys, a);
    NextKeepsQueueOk(cfg, sys, a);
    forall g | g in Next(cfg, sys, a).guards
      ensures GuardOk(Next(cfg, sys, a).issued, Next(cfg, sys, a).store, cfg, Next(cfg, sys, a).guards[g])
    {
      NextKeepsGuards(cfg, sys, a, g);
    }
    hide Next, GuardOk, NamedAreOver, QueueOk, CompletersFaithful, StoreSound;
  }

  lemma {:induction false} TameRunsAreSound(cfg: Config, run: seq<Action>)
    requires TameRun(cfg, run) && cfg.defaultAgent != ""
    ensures Invariant(cfg, Run(cfg, INIT, run))
  {
    if run != [] {
      TameRunsAreSound(cfg, run[..|run| - 1]);
      NextKeepsInvariant(cfg, Run(cfg, INIT, run[..|run| - 1]), run[|run| - 1]);
    }
  }

  // ---- main results ----

  // A session that was completed, abandoned, evicted or expired is never active
  // or paused again, however the run continues.
  lemma {:induction false} OverStaysOver(cfg: Config, run: seq<Action>, more: seq<Action>, s: Sid)
    requires TameRun(cfg, run + more) && cfg.defaultAgent != ""
    requires Over(Run(cfg, INIT, run).issued, Run(cfg, INIT, run).store, s)
    ensures Over(Run(cfg, INIT, run + more).issued, Run(cfg, INIT, run + more).store, s)
  {
    hide Next, Invariant, Revives, StoreSound, Over;
    if more == [] {
      assert run + more == run;
    } else {
      var all, most := run + more, more[..|more| - 1];
      assert all[..|all| - 1] == run + most;
      OverStaysOver(cfg, run, most, s);
      TameRunsAreSound(cfg, run + most);
      NextAdvances(cfg, Run(cfg, INIT, run + most), all[|all| - 1]);
    }
  }

  // Exactly which steps bring a session back that was over.
  lemma SessionRevivedIff(cfg: Config, sys: Sys, a: Action)
    requires Invariant(cfg, sys)
    ensures Revives(cfg, sys, a) <==>
            exists s :: Over(sys.issued, sys.store, s) && !Over(Next(cfg, sys, a).issued, Next(cfg, sys, a).store, s)
  {
    if Revives(cfg, sys, a) {
      RevivedIsLive(cfg, sys, a);
    } else {
      NextAdvances(cfg, sys, a);
    }
    hide Next, Revives, StoreSound, Over;
  }

  // The step brings no session back that was over.
  ghost predicate KeepsOver(cfg: Config, sys: Sys, a: Action) {
    forall s :: Over(sys.issued, sys.store, s) ==> Over(Next(cfg, sys, a).issued, Next(cfg, sys, a).store, s)
  }

  ghost predicate KeepsOverAt(cfg: Config, run: seq<Action>, k: nat)
    requires k < |run|
  {
    KeepsOver(cfg, Run(cfg, INIT, run[..k]), run[k])
  }

  // Over whole runs: no step brings a session back exactly if the run is tame.
  lemma {:induction false} OverStaysOverIff(cfg: Config, run: seq<Action>)
    requires cfg.defaultAgent != ""
    ensures (forall k :: 0 <= k < |run| ==> KeepsOverAt(cfg, run, k)) <==> TameRun(cfg, run)
  {
    hide KeepsOver, Revives, Next, Invariant;
    if run != [] {
      var n := |run| - 1;
      OverStaysOverIff(cfg, run[..n]);
      forall k | 0 <= k < n ensures KeepsOverAt(cfg, run[..n], k) <==> KeepsOverAt(cfg, run, k) {
        assert run[..n][..k] == run[..k];
      }
      if TameRun(cfg, run[..n]) {
        TameRunsAreSound(cfg, run[..n]);
        RevivedOrKept(cfg, Run(cfg, INIT, run[..n]), run[n]);
        assert KeepsOverAt(cfg, run, n) <==> !Revives(cfg, Run(cfg, INIT, run[..n]), run[n]);
      }
    }
  }

  lemma RevivedOrKept(cfg: Config, sys: Sys, a: Action)
    requires Invariant(cfg, sys)
    ensures KeepsOver(cfg, sys, a) <==> !Revives(cfg, sys, a)
  {
    SessionRevivedIff(cfg, sys, a);
    hide Next, Revives, Over, Invariant;
  }

  lemma StartedIsLive(cfg: Config, st: Store, agent: Label, sid: Sid, owner: Owner, ts: int)
    ensures var after := StartCommit(cfg, st, agent, sid, owner, ts).meta;
            sid in after && after[sid].status == Active
  {
    var begun := Begun(st, agent, sid, owner, ts);
    EvictAllThins(cfg, begun, Candidates(cfg, begun));
  }

  lemma RevivedIsLive(cfg: Config, sys: Sys, a: Action)
    requires Invariant(cfg, sys) && Revives(cfg, sys, a)
    ensures var s := if a.Manage? then a.op.sid else sys.guards[a.g].req.sid;
            Over(sys.issued, sys.store, s) && !Over(Next(cfg, sys, a).issued, Next(cfg, sys, a).store, s)
  {
    hide NamedAreOver, QueueOk, CompletersFaithful, PointerExact, Owns, StartCommit, Displaced;
    if a.Manage? && a.op.Start? {
      StartedIsLive(cfg, sys.store, Named(cfg, a.op.agent), a.op.sid, a.op.owner, a.op.ts);
    } else if a.Guarded? && sys.guards[a.g].req.StartReq? {
      var req := sys.guards[a.g].req;
      StartedIsLive(cfg, sys.store, req.agent, req.sid, req.owner, a.guard.ts);
    }
  }

  // A guarded start or resume pauses only a session its caller owns then and there.
  lemma GuardedScriptPausesOnlyItsOwn(cfg: Config, run: seq<Action>, g: nat, ts: int, s: Sid)
    requires TameRun(cfg, run + [Guarded(g, Script(ts))]) && cfg.defaultAgent != ""
    requires var sys := Run(cfg, INIT, run);
             var after := Next(cfg, sys, Guarded(g, Script(ts)));
             && s in after.store.meta && after.store.meta[s].status == Paused
             && !(s in sys.store.meta && sys.store.meta[s].status == Paused)
    ensures var sys := Run(cfg, INIT, run);
            && g in sys.guards && s in sys.store.meta
            && Owns(cfg.deployment, sys.store.meta[s].owner, sys.guards[g].caller)
  {
    var all := run + [Guarded(g, Script(ts))];
    assert all[..|all| - 1] == run;
    TameRunsAreSound(cfg, run);
    GuardPausesPointed(cfg, Run(cfg, INIT, run), g, ts, s);
    hide Run, Next;
  }

  lemma GuardPausesPointed(cfg: Config, sys: Sys, g: nat, ts: int, s: Sid)
    requires Invariant(cfg, sys)
    requires var after := Next(cfg, sys, Guarded(g, Script(ts)));
             && s in after.store.meta && after.store.meta[s].status == Paused
             && !(s in sys.store.meta && sys.store.meta[s].status == Paused)
    ensures g in sys.guards && s in sys.store.meta
    ensures Owns(cfg.deployment, sys.store.meta[s].owner, sys.guards[g].caller)
  {
    GuardStoreCases(cfg, sys, g, Script(ts));
    hide GuardAct, NamedAreOver, QueueOk, CompletersFaithful, ResumeRefusal, Owns, ZAdd, DropPointers;
    var proc := sys.guards[g];
    assert GuardOk(sys.issued, sys.store, cfg, proc);
    if proc.req.StartReq? {
      var begun := Begun(sys.store, proc.req.agent, proc.req.sid, proc.req.owner, ts);
      EvictAllThins(cfg, begun, Candidates(cfg, begun));
    }
  }
}
