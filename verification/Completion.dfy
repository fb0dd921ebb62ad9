/** complete_session under interference: an attempt that commits is one atomic
    completion of the state it commits to. */
module Completion {
  import opened Wrappers
  import opened Principal
  import opened SessionStore
  import opened Protocol

  // What a completer holds is still true of the store unless it was marked dirty.
  predicate Faithful(cfg: Config, st: Store, c: Completer) {
    match c.phase
    case Read(m) => Holds(cfg, st, c, m)
    case PointersWatched(m) => Holds(cfg, st, c, m)
    case PointersRead(m, stale) =>
      && Holds(cfg, st, c, m)
      && (!c.dirty ==> stale == StaleLabels(st.pointer, {m.agent, c.req.agent}, c.req.sid))
    case _ => true
  }

  predicate Holds(cfg: Config, st: Store, c: Completer, m: Meta) {
    && CompleteRefusal(cfg, Some(m), c.req).None?
    && (!c.dirty ==> Lookup(st.meta, c.req.sid) == Some(m))
  }

  predicate RequestOk(cfg: Config, req: CompleteRequest) {
    req.sid != "" && (cfg.defaultAgent != "" ==> req.agent != "")
  }

  predicate CompletersFaithful(cfg: Config, sys: Sys) {
    forall c :: c in sys.completers ==>
      RequestOk(cfg, sys.completers[c].req) && Faithful(cfg, sys.store, sys.completers[c])
  }

  lemma ObserveKeepsFaithful(cfg: Config, before: Store, after: Store, c: Completer)
    requires Faithful(cfg, before, c)
    ensures Faithful(cfg, after, Observe(before, after, c))
  {
    if c.phase.PointersRead? && !Disturbed(before, after, c) {
      var labels := {c.phase.m.agent, c.req.agent};
      forall l | l in labels
        ensures l in StaleLabels(before.pointer, labels, c.req.sid)
                <==> l in StaleLabels(after.pointer, labels, c.req.sid)
      {
        assert l != "" ==> Lookup(before.pointer, l) == Lookup(after.pointer, l);
      }
    }
  }

  lemma StepIsFaithful(cfg: Config, sys: Sys, c: nat, step: CompleteStep)
    requires CompletersFaithful(cfg, sys)
    requires c in CompleterAct(cfg, sys, c, step).completers
    ensures RequestOk(cfg, CompleterAct(cfg, sys, c, step).completers[c].req)
    ensures Faithful(cfg, sys.store, CompleterAct(cfg, sys, c, step).completers[c])
  {
  }

  lemma OnlyItsOwnCompleterMoves(cfg: Config, sys: Sys, c: nat, step: CompleteStep, other: nat)
    requires other != c
    ensures Lookup(CompleterAct(cfg, sys, c, step).completers, other) == Lookup(sys.completers, other)
  {
  }

  lemma OthersMoveNoCompleter(cfg: Config, sys: Sys, a: Action)
    requires !a.Complete?
    ensures Act(cfg, sys, a).completers == sys.completers
  {
    hide ManageStore;
    match a
    case Manage(_) =>
    case Guarded(g, step) => hide WorkerAct, RequeueAct, CompleterAct;
    case Work(w, step) => hide GuardAct, RequeueAct, CompleterAct;
    case Requeue(r, step) => hide GuardAct, WorkerAct, CompleterAct;
  }

  lemma NextKeepsFaithful(cfg: Config, sys: Sys, a: Action)
    requires CompletersFaithful(cfg, sys)
    ensures CompletersFaithful(cfg, Next(cfg, sys, a))
  {
    var after := Act(cfg, sys, a);
    forall c | c in after.completers
      ensures RequestOk(cfg, after.completers[c].req)
      ensures Faithful(cfg, after.store, Observe(sys.store, after.store, after.completers[c]))
    {
      if a.Complete? && a.c == c {
        StepIsFaithful(cfg, sys, c, a.complete);
      } else if a.Complete? {
        OnlyItsOwnCompleterMoves(cfg, sys, a.c, a.complete, c);
      } else {
        OthersMoveNoCompleter(cfg, sys, a);
      }
      ObserveKeepsFaithful(cfg, sys.store, after.store, after.completers[c]);
    }
  }

  lemma {:induction false} RunKeepsFaithful(cfg: Config, sys: Sys, run: seq<Action>)
    requires CompletersFaithful(cfg, sys)
    ensures CompletersFaithful(cfg, Run(cfg, sys, run))
  {
    if run != [] {
      RunKeepsFaithful(cfg, sys, run[..|run| - 1]);
      NextKeepsFaithful(cfg, Run(cfg, sys, run[..|run| - 1]), run[|run| - 1]);
    }
  }

  // ---- every completion is one atomic completion, or nothing ----

  predicate Unmoved(before: Sys, after: Sys) {
    after.store == before.store && after.queue == before.queue && after.nextId == before.nextId
  }

  // complete_session run alone on the state as it is.
  function AtomicComplete(cfg: Config, sys: Sys, req: CompleteRequest, now: int): (Sys, CompleteResult) {
    var m := Lookup(sys.store.meta, req.sid);
    var why := CompleteRefusal(cfg, m, req);
    if why.Some? then (sys, Refused(why.value))
    else
      (sys.(store := CompleteCommit(sys.store, req),
            queue := sys.queue[sys.nextId := Entry(req.sid, 0, now)], nextId := sys.nextId + 1),
       Done(CompleteReplyOf(m.value, req)))
  }

  lemma DroppingStaleLabels(pointer: map<Label, Sid>, labels: set<Label>, sid: Sid)
    ensures pointer - StaleLabels(pointer, labels, sid) == DropPointers(pointer, labels, sid)
  {
  }

  lemma ExecIsAtomic(cfg: Config, sys: Sys, c: nat, now: int)
    requires CompletersFaithful(cfg, sys)
    requires c in sys.completers && sys.completers[c].phase.PointersRead? && !sys.completers[c].dirty
    ensures var (atomic, result) := AtomicComplete(cfg, sys, sys.completers[c].req, now);
            var after := CompleterAct(cfg, sys, c, Exec(now));
            result.Done? && Unmoved(atomic, after) && after.completers[c].phase == Ended(result)
  {
    var proc := sys.completers[c];
    DroppingStaleLabels(sys.store.pointer, {proc.phase.m.agent, proc.req.agent}, proc.req.sid);
  }

  lemma CompleterStoreCases(cfg: Config, sys: Sys, c: nat, step: CompleteStep)
    requires CompletersFaithful(cfg, sys)
    ensures var after := CompleterAct(cfg, sys, c, step).store;
            || after == sys.store
            || (c in sys.completers && sys.completers[c].req.sid in sys.store.meta
                && after == CompleteCommit(sys.store, sys.completers[c].req))
  {
    if c in sys.completers && step.Exec? && sys.completers[c].phase.PointersRead? && !sys.completers[c].dirty {
      ExecIsAtomic(cfg, sys, c, step.now);
    }
    hide ExecStore, CompleteCommit;
  }

  // A step that ends the completer has the effect and the answer of
  // AtomicComplete on the state it ran in, except that losing the last attempt
  // changes nothing; no other step of it changes anything.
  predicate AtomicOrNothing(cfg: Config, sys: Sys, after: Sys, c: nat, step: CompleteStep)
    requires c in sys.completers
  {
    var proc := sys.completers[c];
    c in after.completers &&
    var phase := after.completers[c].phase;
    if phase == proc.phase || !phase.Ended? then
      Unmoved(sys, after)
    else if proc.dirty && proc.phase.PointersRead? then
      proc.attempt + 1 >= COMPLETE_RETRIES && Unmoved(sys, after) && phase == Ended(Refused(Contended))
    else
      var (atomic, result) := AtomicComplete(cfg, sys, proc.req, if step.Exec? then step.now else 0);
      Unmoved(atomic, after) && phase == Ended(result)
  }

  lemma CompleterActIsAtomic(cfg: Config, sys: Sys, c: nat, step: CompleteStep)
    requires CompletersFaithful(cfg, sys) && c in sys.completers
    ensures AtomicOrNothing(cfg, sys, CompleterAct(cfg, sys, c, step), c, step)
  {
    if step.Exec? && sys.completers[c].phase.PointersRead? && !sys.completers[c].dirty {
      ExecIsAtomic(cfg, sys, c, step.now);
      hide DropPointers, StaleLabels, ExecStore, CompleteCommit;
    }
  }

  // In every reachable state, whatever ran since the completer's reads.
  lemma CompletionIsAtomic(cfg: Config, run: seq<Action>, c: nat, step: CompleteStep)
    requires c in Run(cfg, INIT, run).completers
    ensures AtomicOrNothing(cfg, Run(cfg, INIT, run), Next(cfg, Run(cfg, INIT, run), Complete(c, step)), c, step)
  {
    RunKeepsFaithful(cfg, INIT, run);
    CompleterActIsAtomic(cfg, Run(cfg, INIT, run), c, step);
    hide CompleterAct, AtomicComplete;
  }
}
