/** Pointers and statuses over whole runs of the protocol. */
module ActivePointers {
  import opened Wrappers
  import opened Principal
  import opened SessionStore
  import opened Eviction
  import opened Protocol
  import opened Completion

  // ---- every run: an active session is the one its label points at ----

  predicate ActiveIsPointed(st: Store) {
    forall s :: s in st.meta && st.meta[s].status == Active ==> Lookup(st.pointer, st.meta[s].agent) == Some(s)
  }

  lemma StartKeepsActivePointed(cfg: Config, st: Store, agent: Label, sid: Sid, owner: Owner, ts: int)
    requires ActiveIsPointed(st) && FreshId(st, sid)
    ensures ActiveIsPointed(StartCommit(cfg, st, agent, sid, owner, ts))
  {
    var started := Begun(st, agent, sid, owner, ts);
    assert ActiveIsPointed(started);
    EvictAllThins(cfg, started, Candidates(cfg, started));
  }

  lemma ManageKeepsActivePointed(cfg: Config, st: Store, op: Op)
    requires ActiveIsPointed(st)
    ensures ActiveIsPointed(ManageStore(cfg, st, op))
  {
    match op
    case Start(agent, sid, owner, ts) =>
      if FreshId(st, sid) { StartKeepsActivePointed(cfg, st, Named(cfg, agent), sid, owner, ts); }
    case Sweep => EvictAllThins(cfg, st, Candidates(cfg, st));
    case _ => hide StartCommit, Evict;
  }

  lemma GuardKeepsActivePointed(cfg: Config, sys: Sys, g: nat, step: GuardStep)
    requires ActiveIsPointed(sys.store)
    ensures ActiveIsPointed(GuardAct(cfg, sys, g, step).store)
  {
    GuardStoreCases(cfg, sys, g, step);
    if g in sys.guards && step.Script? && sys.guards[g].req.StartReq? && FreshId(sys.store, sys.guards[g].req.sid) {
      var req := sys.guards[g].req;
      StartKeepsActivePointed(cfg, sys.store, req.agent, req.sid, req.owner, step.ts);
    }
    hide StartCommit, GuardAct;
  }

  lemma CompleterKeepsActivePointed(cfg: Config, sys: Sys, c: nat, step: CompleteStep)
    requires ActiveIsPointed(sys.store) && CompletersFaithful(cfg, sys)
    ensures ActiveIsPointed(CompleterAct(cfg, sys, c, step).store)
  {
  }

  lemma WorkerKeepsActivePointed(sys: Sys, w: nat, step: WorkStep)
    requires ActiveIsPointed(sys.store)
    ensures ActiveIsPointed(WorkerAct(sys, w, step).store)
  {
  }

  lemma RequeueKeepsActivePointed(sys: Sys, r: nat, step: RequeueStep)
    requires ActiveIsPointed(sys.store)
    ensures ActiveIsPointed(RequeueAct(sys, r, step).store)
  {
  }

  lemma NextKeepsActivePointed(cfg: Config, sys: Sys, a: Action)
    requires ActiveIsPointed(sys.store) && CompletersFaithful(cfg, sys)
    ensures ActiveIsPointed(Next(cfg, sys, a).store)
  {
    match a
    case Manage(op) => ManageKeepsActivePointed(cfg, sys.store, op);
    case Complete(c, step) => CompleterKeepsActivePointed(cfg, sys, c, step);
    case Guarded(g, step) => GuardKeepsActivePointed(cfg, sys, g, step);
    case Work(w, step) => WorkerKeepsActivePointed(sys, w, step);
    case Requeue(r, step) => RequeueKeepsActivePointed(sys, r, step);
  }

  // In every reachable state a label has at most one active session, and its
  // pointer names it.
  lemma {:induction false} ActiveSessionIsPointed(cfg: Config, run: seq<Action>)
    ensures ActiveIsPointed(Run(cfg, INIT, run).store)
  {
    if run != [] {
      ActiveSessionIsPointed(cfg, run[..|run| - 1]);
      RunKeepsFaithful(cfg, INIT, run[..|run| - 1]);
      NextKeepsActivePointed(cfg, Run(cfg, INIT, run[..|run| - 1]), run[|run| - 1]);
    }
  }
}
